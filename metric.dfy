/** The survey recorder of bot/metric.py. A metric file maps survey ids to surveys, a survey maps a
    user id (as a string) to that user's answers, and the answers map a question id to the choice;
    current_surveys.json maps each metric to the survey id that callbacks are accepted for. The
    files are the maps of a MetricStore; the subscriber list of start_metrics is a parameter. */
module Metric {
  import opened Wrappers
  import opened Text
  import Handlers

  type Answers = map<string, string>
  type Survey = map<string, Answers>
  type MetricData = map<string, Survey>

  /** The questions every complete entry has answered. */
  const REQUIRED: set<string> := {"q1", "q2", "q3", "q4"}

  /** is_survey_complete */
  predicate IsSurveyComplete(entry: Answers) {
    REQUIRED <= entry.Keys
  }

  /** An entry is complete exactly when it answers all four questions; an answer to any other key
      neither completes nor spoils it. */
  lemma SurveyCompleteExactly(entry: Answers, extra: string, value: string)
    ensures IsSurveyComplete(entry) <==> "q1" in entry && "q2" in entry && "q3" in entry && "q4" in entry
    ensures extra !in REQUIRED ==> (IsSurveyComplete(entry[extra := value]) <==> IsSurveyComplete(entry))
  {
  }

  // ---------------------------------------------------------------------------------------------
  // cancel_pending_surveys

  /** One survey with the user's entry removed if it is incomplete. */
  function CancelIn(survey: Survey, user: string): Survey {
    if user in survey && !IsSurveyComplete(survey[user]) then survey - {user} else survey
  }

  /** The metric data cancel_pending_surveys leaves behind. */
  function Cancelled(data: MetricData, user: string): MetricData {
    map sid | sid in data :: CancelIn(data[sid], user)
  }

  /** Some survey holds an incomplete entry of the user. */
  predicate HasPending(data: MetricData, user: string) {
    exists sid :: sid in data && user in data[sid] && !IsSurveyComplete(data[sid][user])
  }

  /** Cancelling keeps every survey, removes the user's entry exactly where it is incomplete, and
      leaves complete entries and every other user's entry as they were. */
  lemma CancelledSpec(data: MetricData, user: string)
    ensures Cancelled(data, user).Keys == data.Keys
    ensures forall sid :: sid in data ==>
      && Cancelled(data, user)[sid] - {user} == data[sid] - {user}
      && (user in Cancelled(data, user)[sid] <==> user in data[sid] && IsSurveyComplete(data[sid][user]))
      && (user in Cancelled(data, user)[sid] ==> Cancelled(data, user)[sid][user] == data[sid][user])
    ensures !HasPending(Cancelled(data, user), user)
  {
  }

  /** With nothing pending, cancelling changes nothing, which is why the source skips the save. */
  lemma CancelNothingPending(data: MetricData, user: string)
    requires !HasPending(data, user)
    ensures Cancelled(data, user) == data
  {
    forall sid | sid in data ensures CancelIn(data[sid], user) == data[sid] {
      assert !(user in data[sid] && !IsSurveyComplete(data[sid][user]));
    }
  }

  /** The loop of cancel_pending_surveys over the survey ids, with its `changed` flag. */
  method CancelPending(data: MetricData, user: string) returns (result: MetricData, changed: bool)
    ensures result == Cancelled(data, user)
    ensures changed <==> HasPending(data, user)
  {
    result := data;
    changed := false;
    var todo := data.Keys;
    while todo != {}
      invariant todo <= data.Keys
      invariant result.Keys == data.Keys
      invariant forall sid :: sid in data && sid !in todo ==> result[sid] == CancelIn(data[sid], user)
      invariant forall sid :: sid in todo ==> result[sid] == data[sid]
      invariant changed <==>
        exists sid :: sid in data && sid !in todo && user in data[sid] && !IsSurveyComplete(data[sid][user])
      decreases todo
    {
      var sid :| sid in todo;
      if user in result[sid] {
        if !IsSurveyComplete(result[sid][user]) {
          result := result[sid := result[sid] - {user}];
          changed := true;
        }
      }
      todo := todo - {sid};
    }
    assert forall sid :: sid in data ==> result[sid] == Cancelled(data, user)[sid];
  }

  // ---------------------------------------------------------------------------------------------
  // Questions, keyboards and callback data

  /** The callback data of a survey button. */
  function CallbackData(metric: string, survey: string, question: string, choice: string): string {
    Join(["metrics", metric, survey, question, choice], '|')
  }

  /** What metrics_callback_handler reads from callback data that splits into exactly five parts;
      the first part is not looked at. */
  datatype Callback = Callback(metric: string, survey: string, question: string, choice: string)

  function ParseCallback(data: string): (r: Option<Callback>)
    ensures r.Some? <==> |Split(data, '|')| == 5
  {
    var parts := Split(data, '|');
    if |parts| != 5 then None else Some(Callback(parts[1], parts[2], parts[3], parts[4]))
  }

  /** Button data built for a metric and survey id without '|' parses back to the same metric,
      survey id, question and choice. */
  lemma CallbackRoundTrip(metric: string, survey: string, question: string, choice: string)
    requires '|' !in metric && '|' !in survey && '|' !in question && '|' !in choice
    ensures |Split(CallbackData(metric, survey, question, choice), '|')| == 5
    ensures ParseCallback(CallbackData(metric, survey, question, choice)) == Some(Callback(metric, survey, question, choice))
  {
    var parts := ["metrics", metric, survey, question, choice];
    assert forall k :: 0 <= k < |parts| ==> '|' !in parts[k];
    SplitJoin(parts, '|');
  }

  /** The choices a question offers: 1..5 for the three ratings, send or skip for the last. */
  function Choices(question: string): seq<string> {
    if question == "q1" || question == "q2" || question == "q3" then ["1", "2", "3", "4", "5"]
    else if question == "q4" then ["отправить", "пропустил"]
    else []
  }

  datatype Button = Button(caption: string, data: string)

  /** One button per choice; the rating buttons show the digit, the q4 buttons their own captions. */
  function Row(question: string, metric: string, survey: string): (row: seq<Button>)
    ensures |row| == |Choices(question)|
    ensures forall k :: 0 <= k < |row| ==> row[k].data == CallbackData(metric, survey, question, Choices(question)[k])
  {
    var choices := Choices(question);
    seq(|choices|, k requires 0 <= k < |choices| =>
      Button(if question == "q4" then (if k == 0 then "📨 Отправить" else "⏭️ Пропустить") else choices[k],
             CallbackData(metric, survey, question, choices[k])))
  }

  /** get_question_and_keyboard: the question text and one row of buttons; an unknown question
      gives an empty text and no keyboard. */
  function QuestionAndKeyboard(question: string, metric: string, survey: string): (r: (string, Option<seq<Button>>))
    ensures r.1.Some? <==> question in REQUIRED
    ensures r.1.Some? ==> |r.1.value| == |Choices(question)|
    ensures r.1.Some? ==> forall k :: 0 <= k < |r.1.value| ==>
      r.1.value[k].data == CallbackData(metric, survey, question, Choices(question)[k])
  {
    var row := Row(question, metric, survey);
    if question == "q1" then ("⭐ Оцените FEELIX от 1 до 5:", Some(row))
    else if question == "q2" then ("😊 Оцените способность бота поднимать ваше настроение:", Some(row))
    else if question == "q3" then ("💙 Оцените способность бота улучшать эмоциональное состояние:", Some(row))
    else if question == "q4" then ("📝 Ваше мнение очень важно для нас! Хотите ли вы оставить отзыв?", Some(row))
    else ("", None)
  }

  /** Every button of a survey question parses back to its own metric, survey, question and choice:
      five ratings for q1..q3 and two answers for q4. */
  lemma KeyboardRoundTrip(question: string, metric: string, survey: string, k: nat)
    requires '|' !in metric && '|' !in survey
    requires question in REQUIRED
    requires k < |Choices(question)|
    ensures |Choices(question)| == (if question == "q4" then 2 else 5)
    ensures ParseCallback(QuestionAndKeyboard(question, metric, survey).1.value[k].data)
            == Some(Callback(metric, survey, question, Choices(question)[k]))
  {
    var choice := Choices(question)[k];
    assert '|' !in choice;
    assert '|' !in question;
    CallbackRoundTrip(metric, survey, question, choice);
  }

  /** QUESTION_ORDER */
  const QUESTION_ORDER: map<string, Option<string>> :=
    map["q1" := Some("q2"), "q2" := Some("q3"), "q3" := Some("q4"), "q4" := None]

  /** QUESTION_ORDER.get(question), with a missing key read as no next question. */
  function NextQuestion(question: string): Option<string> {
    if question in QUESTION_ORDER then QUESTION_ORDER[question] else None
  }

  /** How many questions are left from a question on: the measure that makes the chain end. */
  function Remaining(question: string): nat {
    if question == "q1" then 4 else if question == "q2" then 3
    else if question == "q3" then 2 else if question == "q4" then 1 else 0
  }

  /** The questions asked from a question on, following QUESTION_ORDER. */
  function QuestionsFrom(question: string): (qs: seq<string>)
    ensures |qs| >= 1 && qs[0] == question
    decreases Remaining(question)
  {
    match NextQuestion(question)
    case Some(next) =>
      assert Remaining(next) < Remaining(question);
      [question] + QuestionsFrom(next)
    case None => [question]
  }

  /** A survey started at q1 asks q1, q2, q3 and q4, in that order and then stops, so an entry that
      answers every question asked is complete. */
  lemma QuestionChain(entry: Answers)
    ensures QuestionsFrom("q1") == ["q1", "q2", "q3", "q4"]
    ensures (forall k :: 0 <= k < |QuestionsFrom("q1")| ==> QuestionsFrom("q1")[k] in entry) ==> IsSurveyComplete(entry)
  {
    assert QuestionsFrom("q4") == ["q4"];
    assert QuestionsFrom("q3") == ["q3", "q4"];
    assert QuestionsFrom("q2") == ["q2", "q3", "q4"];
    var qs := QuestionsFrom("q1");
    if forall k :: 0 <= k < |qs| ==> qs[k] in entry {
      assert qs[0] in entry && qs[1] in entry && qs[2] in entry && qs[3] in entry;
    }
  }

  // ---------------------------------------------------------------------------------------------
  // Recording an answer

  /** data[survey][user][question] = choice, creating the survey and the user's entry if missing. */
  function RecordAnswer(data: MetricData, sid: string, user: string, question: string, choice: string): MetricData {
    var survey := if sid in data then data[sid] else map[];
    var entry := if user in survey then survey[user] else map[];
    data[sid := survey[user := entry[question := choice]]]
  }

  /** Recording stores the choice, replacing an earlier answer, and keeps every other answer of the
      user, every other user of the survey and every other survey. */
  lemma RecordAnswerSpec(data: MetricData, sid: string, user: string, question: string, choice: string)
    ensures var d := RecordAnswer(data, sid, user, question, choice);
      && d.Keys == data.Keys + {sid}
      && user in d[sid] && question in d[sid][user] && d[sid][user][question] == choice
      && (forall q :: q in d[sid][user] && q != question ==> sid in data && user in data[sid] && q in data[sid][user]
                                                             && d[sid][user][q] == data[sid][user][q])
      && (sid in data && user in data[sid] ==> d[sid][user].Keys == data[sid][user].Keys + {question})
      && (forall u :: u in d[sid] && u != user ==> sid in data && u in data[sid] && d[sid][u] == data[sid][u])
      && (sid in data ==> d[sid].Keys == data[sid].Keys + {user})
      && (forall s :: s in data && s != sid ==> d[s] == data[s])
  {
  }

  /** What the bot does after recording an answer. */
  datatype FollowUp = RequestFeedback | Ask(question: string) | Thanks

  /** "отправить" on q4 asks for feedback; otherwise the next question of QUESTION_ORDER is sent, or
      a thank-you when there is none. */
  function FollowUpOf(question: string, choice: string): FollowUp {
    if question == "q4" && choice == "отправить" then RequestFeedback
    else match NextQuestion(question)
      case Some(next) => Ask(next)
      case None => Thanks
  }

  /** The rating questions lead to the next one; q4 ends with the feedback request or the thanks. */
  lemma FollowUps(choice: string)
    ensures FollowUpOf("q1", choice) == Ask("q2") && FollowUpOf("q2", choice) == Ask("q3")
    ensures FollowUpOf("q3", choice) == Ask("q4")
    ensures FollowUpOf("q4", choice) == (if choice == "отправить" then RequestFeedback else Thanks)
  {
  }

  /** What a callback led to. */
  datatype CallbackOutcome = Malformed | NotCurrent | Recorded(followUp: FollowUp)

  /** start_metrics' answer. */
  datatype StartOutcome = NoRights | MissingMetric | Started(metric: string, survey: string, invited: seq<int>)

  /** The subscribers start_metrics invites: those whose user_id is present and non-zero. */
  function Invited(users: seq<Option<int>>): (ids: seq<int>)
    ensures |ids| <= |users|
    ensures forall k :: 0 <= k < |ids| ==> ids[k] != 0
  {
    if users == [] then []
    else (if users[0].Some? && users[0].value != 0 then [users[0].value] else []) + Invited(users[1..])
  }

  /** Exactly the present, non-zero user ids are invited: every such id is in the list, and
      nothing else is. */
  lemma {:induction false} InvitedMembers(users: seq<Option<int>>)
    ensures forall k :: 0 <= k < |users| && users[k].Some? && users[k].value != 0 ==> users[k].value in Invited(users)
    ensures forall x :: x in Invited(users) ==> Some(x) in users && x != 0
  {
    if users != [] {
      InvitedMembers(users[1..]);
      assert forall k :: 1 <= k < |users| ==> users[k] == users[1..][k - 1];
    }
  }

  /** The metric data after each invited user's pending entries are cancelled, in order. */
  function CancelEach(data: MetricData, ids: seq<int>): MetricData {
    if ids == [] then data else CancelEach(Cancelled(data, Decimal(ids[0])), ids[1..])
  }

  /** Cancelling keeps the survey ids and never touches an empty survey, so the survey start_metrics
      creates stays empty while the invitations go out. */
  lemma {:induction false} CancelEachKeeps(data: MetricData, ids: seq<int>, sid: string)
    requires sid in data && data[sid] == map[]
    ensures CancelEach(data, ids).Keys == data.Keys
    ensures CancelEach(data, ids)[sid] == map[]
  {
    if ids != [] {
      var next := Cancelled(data, Decimal(ids[0]));
      CancelledSpec(data, Decimal(ids[0]));
      CancelEachKeeps(next, ids[1..], sid);
    }
  }

  /** A subscriber's complete entries survive the start of a new survey. */
  lemma {:induction false} CancelEachKeepsComplete(data: MetricData, ids: seq<int>, sid: string, user: string)
    requires sid in data && user in data[sid] && IsSurveyComplete(data[sid][user])
    ensures sid in CancelEach(data, ids) && user in CancelEach(data, ids)[sid]
    ensures CancelEach(data, ids)[sid][user] == data[sid][user]
  {
    if ids != [] {
      var next := Cancelled(data, Decimal(ids[0]));
      CancelledSpec(data, Decimal(ids[0]));
      CancelEachKeepsComplete(next, ids[1..], sid, user);
    }
  }

  class MetricStore {
    /** MANAGER_USER_ID */
    const manager: int
    /** current_surveys.json */
    var currentSurveys: map<string, string>
    /** The metric files by metric name; a missing file is absent. */
    var metrics: map<string, MetricData>

    /** load_metrics: a missing file reads as empty data. */
    function Load(metric: string): MetricData
      reads this
    {
      if metric in metrics then metrics[metric] else map[]
    }

    constructor (manager: int, currentSurveys: map<string, string>, metrics: map<string, MetricData>)
      ensures this.manager == manager && this.currentSurveys == currentSurveys && this.metrics == metrics
    {
      this.manager := manager;
      this.currentSurveys := currentSurveys;
      this.metrics := metrics;
    }

    /** cancel_pending_surveys: the file is written only when an entry was removed. */
    method CancelPendingSurveys(metric: string, user: string)
      modifies this
      ensures metrics == if HasPending(old(Load(metric)), user)
                         then old(metrics)[metric := Cancelled(old(Load(metric)), user)]
                         else old(metrics)
      ensures Load(metric) == Cancelled(old(Load(metric)), user)
      ensures currentSurveys == old(currentSurveys)
    {
      var data, changed := CancelPending(Load(metric), user);
      if changed {
        metrics := metrics[metric := data];
      } else {
        CancelNothingPending(Load(metric), user);
      }
    }

    /** start_metrics, with the survey id (a timestamp in the source) and the subscriber list given. */
    method StartMetrics(caller: int, args: seq<string>, survey: string, users: seq<Option<int>>)
      returns (outcome: StartOutcome)
      modifies this
      ensures caller != manager ==> outcome == NoRights && unchanged(this)
      ensures caller == manager && |args| == 0 ==> outcome == MissingMetric && unchanged(this)
      ensures caller == manager && |args| > 0 ==>
        && outcome == Started(args[0], survey, Invited(users))
        && currentSurveys == old(currentSurveys)[args[0] := survey]
        && metrics == old(metrics)[args[0] := CancelEach(old(Load(args[0]))[survey := map[]], Invited(users))]
    {
      if caller != manager {
        return NoRights;
      }
      if |args| == 0 {
        return MissingMetric;
      }
      var metric := args[0];
      currentSurveys := currentSurveys[metric := survey];
      metrics := metrics[metric := Load(metric)[survey := map[]]];
      ghost var start := metrics[metric];
      var invited: seq<int> := [];
      for i := 0 to |users|
        invariant invited == Invited(users[..i])
        invariant metrics == old(metrics)[metric := CancelEach(start, invited)]
        invariant currentSurveys == old(currentSurveys)[metric := survey]
      {
        InvitedSnoc(users, i);
        if users[i].Some? && users[i].value != 0 {
          CancelPendingSurveys(metric, Decimal(users[i].value));
          CancelEachSnoc(start, invited, users[i].value);
          invited := invited + [users[i].value];
        }
      }
      assert users[..|users|] == users;
      outcome := Started(metric, survey, invited);
    }

    /** metrics_callback_handler, for the user who pressed the button. */
    method MetricsCallback(bot: Handlers.Bot, user: int, data: string) returns (outcome: CallbackOutcome)
      modifies this, bot
      ensures ParseCallback(data).None? ==> outcome == Malformed && unchanged(this) && unchanged(bot)
      ensures ParseCallback(data).Some? && Get(old(currentSurveys), ParseCallback(data).value.metric) != Some(ParseCallback(data).value.survey) ==>
        outcome == NotCurrent && unchanged(this) && unchanged(bot)
      ensures ParseCallback(data).Some? && Get(old(currentSurveys), ParseCallback(data).value.metric) == Some(ParseCallback(data).value.survey) ==>
        var cb := ParseCallback(data).value;
        && outcome == Recorded(FollowUpOf(cb.question, cb.choice))
        && currentSurveys == old(currentSurveys)
        && metrics == old(metrics)[cb.metric := RecordAnswer(old(Load(cb.metric)), cb.survey, Decimal(user), cb.question, cb.choice)]
        && bot.State() == (if FollowUpOf(cb.question, cb.choice) == RequestFeedback
                           then old(bot.State()).(userStates := old(bot.userStates)[user :=
                                  Handlers.StateOf(old(bot.userStates), user).(waitingForFeedback := Some(true))])
                           else old(bot.State()))
    {
      var parts := Split(data, '|');
      if |parts| != 5 {
        return Malformed;
      }
      var metric, survey, question, choice := parts[1], parts[2], parts[3], parts[4];
      if Get(currentSurveys, metric) != Some(survey) {
        return NotCurrent;
      }
      var recorded := Load(metric);
      var entries: Survey := if survey in recorded then recorded[survey] else map[];
      var key := Decimal(user);
      var answers: Answers := if key in entries then entries[key] else map[];
      metrics := metrics[metric := recorded[survey := entries[key := answers[question := choice]]]];
      if question == "q4" && choice == "отправить" {
        bot.userStates := bot.userStates[user := Handlers.StateOf(bot.userStates, user).(waitingForFeedback := Some(true))];
        outcome := Recorded(RequestFeedback);
      } else {
        var next := NextQuestion(question);
        if next.Some? {
          outcome := Recorded(Ask(next.value));
        } else {
          outcome := Recorded(Thanks);
        }
      }
    }
  }

  lemma InvitedSnoc(users: seq<Option<int>>, i: nat)
    requires i < |users|
    ensures Invited(users[..i + 1]) ==
            Invited(users[..i]) + (if users[i].Some? && users[i].value != 0 then [users[i].value] else [])
  {
    InvitedConcat(users[..i], [users[i]]);
    assert users[..i + 1] == users[..i] + [users[i]];
  }

  lemma {:induction false} InvitedConcat(a: seq<Option<int>>, b: seq<Option<int>>)
    ensures Invited(a + b) == Invited(a) + Invited(b)
  {
    if a == [] {
      assert a + b == b;
    } else {
      var head := if a[0].Some? && a[0].value != 0 then [a[0].value] else [];
      assert (a + b)[0] == a[0];
      assert (a + b)[1..] == a[1..] + b;
      assert Invited(a + b) == head + Invited(a[1..] + b);
      InvitedConcat(a[1..], b);
      assert Invited(a) == head + Invited(a[1..]);
    }
  }

  lemma {:induction false} CancelEachSnoc(data: MetricData, ids: seq<int>, id: int)
    ensures CancelEach(data, ids + [id]) == Cancelled(CancelEach(data, ids), Decimal(id))
    decreases |ids|
  {
    if ids == [] {
      assert CancelEach(data, [id]) == CancelEach(Cancelled(data, Decimal(id)), []);
    } else {
      CancelEachSnoc(Cancelled(data, Decimal(ids[0])), ids[1..], id);
      assert (ids + [id])[1..] == ids[1..] + [id];
    }
  }
}
