/** The per-user state machine of bot/handlers.py. The module-level dictionaries user_states and
    PREMIUM_USERS, together with the stores behind the utils helpers (histories, genders, the
    feedback file and the history archive), form a World; each handler is a step function on it,
    and the Bot class holds the same state in fields and runs the handlers imperatively, each method
    proved to perform its step. The clock is an integer number of seconds passed in as `now`; the
    language-model gateway is a function passed in as `complete` (replies) and `upstream`
    (summaries). */
module Handlers {
  import opened Wrappers
  import opened Text
  import opened Ledger
  import Config

  /** One user's entry in user_states: each field is a dictionary key that may be absent. */
  datatype UserState = UserState(choosingGender: Option<bool>, waitingForFeedback: Option<bool>,
                                 lastSummary: Option<int>)

  /** The empty dictionary a handler creates for a user it has not seen. */
  const NO_STATE := UserState(None, None, None)

  function StateOf(states: map<int, UserState>, uid: int): UserState {
    if uid in states then states[uid] else NO_STATE
  }

  /** user_states.get(uid, {}).get("choosing_gender", False) */
  predicate ChoosingGender(states: map<int, UserState>, uid: int) {
    StateOf(states, uid).choosingGender == Some(true)
  }

  /** user_states.get(uid, {}).get("waiting_for_feedback") */
  predicate WaitingForFeedback(states: map<int, UserState>, uid: int) {
    StateOf(states, uid).waitingForFeedback == Some(true)
  }

  /** Seconds in the lockout window and in a day. */
  const DAY: int := 86400
  /** A premium grant lasts 30 days from the moment it is made. */
  const PREMIUM_PERIOD: int := 30 * DAY

  const MALE := "Мужской"
  const FEMALE := "Женский"
  /** The three answers to the gender question. */
  const GENDER_CHOICES: seq<string> := [MALE, FEMALE, GENDER_UNSPECIFIED]

  const PREMIUM_BUTTON := "Premium подписка"
  const FEEDBACK_BUTTON := "Оставить отзыв"
  const CLEAR_BUTTON := "Очистить историю"
  const GET_FEEDBACK_BUTTON := "Получить отзывы"
  const ADD_PREMIUM_BUTTON := "Добавить Premium пользователя"

  /** What get_groq_response answers when the gateway call fails, whatever the error. */
  const APOLOGY := "Извините, произошла ошибка при обработке вашего запроса."

  /** The fixed configuration of a running bot: SYSTEM_PROMPT, MANAGER_USER_ID, ADMIN_USER_ID. */
  datatype Settings = Settings(persona: string, manager: int, admins: seq<int>)

  /** One line of the feedback file. */
  datatype Feedback = Feedback(uid: int, text: string)

  /** Everything the handlers read and change. */
  datatype World = World(
    userStates: map<int, UserState>,
    premiumUsers: map<int, int>,
    histories: map<int, seq<Message>>,
    genders: map<int, string>,
    feedbackFile: Option<seq<Feedback>>,
    archive: seq<(int, seq<Message>)>)

  /** load_user_history: a user with no stored history has an empty one. */
  function HistoryOf(w: World, uid: int): seq<Message> {
    if uid in w.histories then w.histories[uid] else []
  }

  /** get_user_gender */
  function GenderOf(w: World, uid: int): Option<string> {
    Get(w.genders, uid)
  }

  datatype PremiumStatus = NotPremium | Expired | Active(until: int, days: int, hours: int)

  /** What a handler sends back, as data. */
  datatype Reply =
    | AskGenderReply
    | GenderNoted(lowered: string)
    | GenderSkipped
    | FeedbackThanks
    | PremiumReply(status: PremiumStatus)
    | AddPremiumHintReply
    | FeedbackPromptReply
    | HistoryClearedReply
    | NoFeedbackYet
    | FeedbackFileSent
    | NoRightsReply
    | ModelReply(text: string)
    | LimitReached(hours: int, minutes: int)
    | PremiumAdded(target: int, until: int)
    | InvalidUserId

  /** get_main_menu: the button labels, one per row. */
  function MainMenu(uid: int, s: Settings): (labels: seq<string>)
    ensures |labels| >= 3 && labels[..3] == [PREMIUM_BUTTON, FEEDBACK_BUTTON, CLEAR_BUTTON]
    ensures GET_FEEDBACK_BUTTON in labels <==> uid in s.admins
    ensures ADD_PREMIUM_BUTTON in labels <==> uid == s.manager
    ensures |labels| == 3 + (if uid in s.admins then 1 else 0) + (if uid == s.manager then 1 else 0)
  {
    [PREMIUM_BUTTON, FEEDBACK_BUTTON, CLEAR_BUTTON]
    + (if uid in s.admins then [GET_FEEDBACK_BUTTON] else [])
    + (if uid == s.manager then [ADD_PREMIUM_BUTTON] else [])
  }

  // ---------------------------------------------------------------------------------------------
  // add_message and get_groq_response

  /** The user_states update after a summary: only a user absent from PREMIUM_USERS gets a
      last_summary time, which opens the 24-hour lockout. */
  function AfterSummary(w: World, uid: int, now: int): World {
    if uid in w.premiumUsers then w
    else w.(userStates := w.userStates[uid := StateOf(w.userStates, uid).(lastSummary := Some(now))])
  }

  /** add_message as a step on the world; the boolean says whether it summarised. */
  function AddMessageStep(w: World, s: Settings, uid: int, role: Role, contents: seq<string>,
                          upstream: string -> Upstream<string>, now: int): (World, bool)
  {
    var r := AddMessages(HistoryOf(w, uid), role, contents, s.persona, GenderOf(w, uid), upstream);
    var w1 := w.(histories := w.histories[uid := r.history]);
    (if r.summarized then AfterSummary(w1, uid, now) else w1, r.summarized)
  }

  /** A summary records last_summary = now exactly for a non-premium user; a premium user's
      user_states entry is left as it was, and nothing but the history and user_states changes. */
  lemma SummaryLocksOnlyNonPremium(w: World, s: Settings, uid: int, role: Role, contents: seq<string>,
                                   upstream: string -> Upstream<string>, now: int)
    ensures var (w1, summarized) := AddMessageStep(w, s, uid, role, contents, upstream, now);
      && w1.premiumUsers == w.premiumUsers && w1.genders == w.genders
      && w1.feedbackFile == w.feedbackFile && w1.archive == w.archive
      && (summarized && uid !in w.premiumUsers ==>
            uid in w1.userStates && w1.userStates[uid].lastSummary == Some(now)
            && w1.userStates[uid].choosingGender == StateOf(w.userStates, uid).choosingGender
            && w1.userStates[uid].waitingForFeedback == StateOf(w.userStates, uid).waitingForFeedback
            && w1.userStates - {uid} == w.userStates - {uid})
      && (!summarized || uid in w.premiumUsers ==> w1.userStates == w.userStates)
  {
  }

  /** What get_groq_response hands back: the reply text and whether it sent the daily-limit notice. */
  datatype ChatResult = ChatResult(reply: string, limitNotice: bool)

  /** get_groq_response: store the user message (possibly summarising), send the stored history
      upstream, and on success store the reply too. The limit notice goes out only when the caller
      passed an update and storing the user message summarised for a non-premium user. */
  function ChatStep(w: World, s: Settings, uid: int, prompt: string,
                    complete: seq<Message> -> Upstream<string>, upstream: string -> Upstream<string>,
                    now: int, withUpdate: bool): (World, ChatResult)
  {
    var (w1, summarized) := AddMessageStep(w, s, uid, User, [prompt], upstream, now);
    match complete(HistoryOf(w1, uid))
    case Answer(text) =>
      var (w2, _) := AddMessageStep(w1, s, uid, Assistant, [text], upstream, now);
      (w2, ChatResult(text, summarized && uid !in w2.premiumUsers && withUpdate))
    case _ => (w1, ChatResult(APOLOGY, false))
  }

  /** A failed gateway call leaves the user message stored (it is never taken back) and answers
      with the fixed apology; without a summary the history is the old one plus that message. */
  lemma ChatFailureKeepsUserMessage(w: World, s: Settings, uid: int, prompt: string,
                                    complete: seq<Message> -> Upstream<string>,
                                    upstream: string -> Upstream<string>, now: int, withUpdate: bool)
    requires var first := AddMessages(HistoryOf(w, uid), User, [prompt], s.persona, GenderOf(w, uid), upstream);
             !complete(first.history).Answer?
    ensures var (w1, r) := ChatStep(w, s, uid, prompt, complete, upstream, now, withUpdate);
      && r == ChatResult(APOLOGY, false)
      && w1.histories[uid] == AddMessages(HistoryOf(w, uid), User, [prompt], s.persona, GenderOf(w, uid), upstream).history
      && (TotalChars(HistoryOf(w, uid)) + |prompt| <= Config.MAX_CHAR_LIMIT ==>
            w1.histories[uid] == HistoryOf(w, uid) + [Message(User, prompt)])
  {
    AddMessagesThreshold(HistoryOf(w, uid), User, [prompt], s.persona, GenderOf(w, uid), upstream);
    assert Lengths([prompt]) == |prompt|;
    assert Items(User, [prompt]) == [Message(User, prompt)];
  }

  /** A successful call answers with the gateway's text, which was computed from the history holding
      the new user message; when neither append summarises, both messages end the history in order. */
  lemma ChatSuccessStoresBoth(w: World, s: Settings, uid: int, prompt: string, text: string,
                              complete: seq<Message> -> Upstream<string>,
                              upstream: string -> Upstream<string>, now: int, withUpdate: bool)
    requires TotalChars(HistoryOf(w, uid)) + |prompt| + |text| <= Config.MAX_CHAR_LIMIT
    requires complete(HistoryOf(w, uid) + [Message(User, prompt)]) == Answer(text)
    ensures var (w1, r) := ChatStep(w, s, uid, prompt, complete, upstream, now, withUpdate);
      && r == ChatResult(text, false)
      && w1.histories[uid] == HistoryOf(w, uid) + [Message(User, prompt), Message(Assistant, text)]
      && w1.userStates == w.userStates
  {
    var h0 := HistoryOf(w, uid);
    AddMessagesThreshold(h0, User, [prompt], s.persona, GenderOf(w, uid), upstream);
    assert Lengths([prompt]) == |prompt|;
    assert Items(User, [prompt]) == [Message(User, prompt)];
    var h1 := h0 + [Message(User, prompt)];
    TotalCharsConcat(h0, [Message(User, prompt)]);
    AddMessagesThreshold(h1, Assistant, [text], s.persona, GenderOf(w, uid), upstream);
    assert Lengths([text]) == |text|;
    assert Items(Assistant, [text]) == [Message(Assistant, text)];
    assert h1 + [Message(Assistant, text)] == h0 + [Message(User, prompt), Message(Assistant, text)];
  }

  // ---------------------------------------------------------------------------------------------
  // start, gender choice, premium

  /** start: the user is now choosing a gender. */
  function StartStep(w: World, uid: int): World {
    w.(userStates := w.userStates[uid := StateOf(w.userStates, uid).(choosingGender := Some(true))])
  }

  /** handle_gender_choice_inner: store the choice and clear the flag. The source indexes
      user_states[uid] directly, so it is only ever called for a user who has an entry. */
  function GenderChoiceStep(w: World, uid: int, choice: string): (World, Reply)
    requires uid in w.userStates
  {
    (w.(genders := w.genders[uid := choice],
        userStates := w.userStates[uid := w.userStates[uid].(choosingGender := Some(false))]),
     if choice == MALE || choice == FEMALE then GenderNoted(Lower(choice)) else GenderSkipped)
  }

  /** The purge that handle_text_with_limit and handle_premium_subscription perform: the user's
      premium entry goes when now is strictly after its end. */
  function PurgeExpired(premium: map<int, int>, uid: int, now: int): map<int, int> {
    if uid in premium && now > premium[uid] then premium - {uid} else premium
  }

  /** A user keeps premium through the purge exactly up to and including the end instant, and no
      other entry is touched. */
  lemma PurgeExpiredExact(premium: map<int, int>, uid: int, now: int)
    ensures uid in PurgeExpired(premium, uid, now) <==> uid in premium && now <= premium[uid]
    ensures PurgeExpired(premium, uid, now) - {uid} == premium - {uid}
    ensures uid in PurgeExpired(premium, uid, now) ==> PurgeExpired(premium, uid, now) == premium
  {
  }

  /** handle_premium_subscription's answer, with the days and hours left of an active subscription. */
  function PremiumStatusOf(premium: map<int, int>, uid: int, now: int): PremiumStatus {
    if uid !in premium then NotPremium
    else if now > premium[uid] then Expired
    else
      var left := premium[uid] - now;
      Active(premium[uid], left / DAY, (left % DAY) / 3600)
  }

  /** The days and hours reported for an active subscription are the time left, rounded down to
      the hour. */
  lemma PremiumStatusBounds(premium: map<int, int>, uid: int, now: int)
    ensures match PremiumStatusOf(premium, uid, now)
      case Active(until, days, hours) =>
        && until == premium[uid] && until >= now
        && 0 <= hours < 24 && days >= 0
        && days * DAY + hours * 3600 <= until - now < days * DAY + hours * 3600 + 3600
      case Expired => uid in premium && now > premium[uid]
      case NotPremium => uid !in premium
  {
  }

  /** handle_premium_subscription */
  function PremiumStep(w: World, uid: int, now: int): (World, Reply) {
    (w.(premiumUsers := PurgeExpired(w.premiumUsers, uid, now)),
     PremiumReply(PremiumStatusOf(w.premiumUsers, uid, now)))
  }

  /** The user id add_premium_user grants to: only the manager may grant, and the first argument
      must be an integer. */
  function PremiumTarget(s: Settings, caller: int, args: seq<string>): Option<int> {
    if caller != s.manager || |args| == 0 then None else ParseInt(args[0])
  }

  /** add_premium_user */
  function AddPremiumStep(w: World, s: Settings, caller: int, args: seq<string>, now: int): (World, Reply) {
    if caller != s.manager then (w, NoRightsReply)
    else
      match PremiumTarget(s, caller, args)
      case None => (w, InvalidUserId)
      case Some(target) =>
        (w.(premiumUsers := w.premiumUsers[target := now + PREMIUM_PERIOD]),
         PremiumAdded(target, now + PREMIUM_PERIOD))
  }

  /** The manager granting premium to any argument int() reads as target (str(target) among them)
      sets its expiry to now + 30 days, replacing any earlier expiry rather than extending it; anyone else, or a missing or non-integer argument,
      leaves PREMIUM_USERS as it was. */
  lemma AddPremiumGrant(w: World, s: Settings, caller: int, args: seq<string>, target: int, now: int)
    ensures caller == s.manager && |args| > 0 && ParseInt(args[0]) == Some(target) ==>
      AddPremiumStep(w, s, caller, args, now) ==
        (w.(premiumUsers := w.premiumUsers[target := now + PREMIUM_PERIOD]), PremiumAdded(target, now + PREMIUM_PERIOD))
    ensures caller == s.manager && |args| > 0 && args[0] == Decimal(target) ==>
      AddPremiumStep(w, s, caller, args, now) ==
        (w.(premiumUsers := w.premiumUsers[target := now + PREMIUM_PERIOD]), PremiumAdded(target, now + PREMIUM_PERIOD))
    ensures caller != s.manager ==> AddPremiumStep(w, s, caller, args, now) == (w, NoRightsReply)
    ensures caller == s.manager && (|args| == 0 || ParseInt(args[0]).None?) ==>
      AddPremiumStep(w, s, caller, args, now) == (w, InvalidUserId)
  {
    if caller == s.manager && |args| > 0 && args[0] == Decimal(target) {
      ParseDecimal(target);
    }
  }

  // ---------------------------------------------------------------------------------------------
  // handle_text

  /** The branch handle_text takes for the stripped message, in the order the source tests them. */
  datatype Route =
    | GenderChosen(choice: string) | AskGender | RecordFeedback | PremiumInfo | AddPremiumHint
    | FeedbackPrompt | ClearHistory | SendFeedbacks | NoRights | Chat

  function RouteOf(states: map<int, UserState>, uid: int, msg: string, s: Settings): Route {
    if ChoosingGender(states, uid) then
      if msg in GENDER_CHOICES then GenderChosen(msg) else AskGender
    else if WaitingForFeedback(states, uid) then RecordFeedback
    else if msg == PREMIUM_BUTTON then PremiumInfo
    else if msg == ADD_PREMIUM_BUTTON && uid == s.manager then AddPremiumHint
    else if msg == FEEDBACK_BUTTON then FeedbackPrompt
    else if msg == CLEAR_BUTTON then ClearHistory
    else if msg == GET_FEEDBACK_BUTTON then (if uid in s.admins then SendFeedbacks else NoRights)
    else Chat
  }

  /** The message reaches the language model exactly when the user is neither choosing a gender nor
      leaving feedback and the text is no menu button ("Добавить Premium пользователя" counts as a
      button only for the manager). */
  lemma RouteChatExactly(states: map<int, UserState>, uid: int, msg: string, s: Settings)
    ensures RouteOf(states, uid, msg, s) == Chat <==>
      && !ChoosingGender(states, uid) && !WaitingForFeedback(states, uid)
      && msg != PREMIUM_BUTTON && msg != FEEDBACK_BUTTON && msg != CLEAR_BUTTON
      && msg != GET_FEEDBACK_BUTTON && !(msg == ADD_PREMIUM_BUTTON && uid == s.manager)
  {
  }

  /** The text of a user waiting for feedback is recorded as feedback even when it is a button. */
  lemma RouteFeedbackFirst(states: map<int, UserState>, uid: int, msg: string, s: Settings)
    requires !ChoosingGender(states, uid) && WaitingForFeedback(states, uid)
    ensures RouteOf(states, uid, msg, s) == RecordFeedback
  {
  }

  /** clear history: archive_user_history moves the stored history into the archive, and any
      last_summary key is removed; entitlements are kept. */
  function ClearHistoryStep(w: World, uid: int): World {
    var w1 := if uid in w.histories then
                w.(archive := w.archive + [(uid, w.histories[uid])], histories := w.histories - {uid})
              else w;
    if uid in w1.userStates && w1.userStates[uid].lastSummary.Some? then
      w1.(userStates := w1.userStates[uid := w1.userStates[uid].(lastSummary := None)])
    else w1
  }

  /** Clearing the history ends a lockout and empties the ledger but keeps premium, gender and the
      other users' state. */
  lemma ClearHistoryEndsLockout(w: World, uid: int)
    ensures var w1 := ClearHistoryStep(w, uid);
      && StateOf(w1.userStates, uid).lastSummary.None?
      && HistoryOf(w1, uid) == []
      && w1.premiumUsers == w.premiumUsers && w1.genders == w.genders
      && w1.userStates - {uid} == w.userStates - {uid}
  {
  }

  /** The feedback branch: append the line to the feedback file (creating it) and clear the flag. */
  function FeedbackStep(w: World, uid: int, msg: string): World {
    var lines := match w.feedbackFile case Some(ls) => ls case None => [];
    w.(feedbackFile := Some(lines + [Feedback(uid, msg)]),
       userStates := w.userStates[uid := StateOf(w.userStates, uid).(waitingForFeedback := Some(false))])
  }

  /** handle_text */
  function HandleTextStep(w: World, s: Settings, uid: int, text: string,
                          complete: seq<Message> -> Upstream<string>, upstream: string -> Upstream<string>,
                          now: int): (World, Reply)
  {
    var msg := Strip(text);
    match RouteOf(w.userStates, uid, msg, s)
    case GenderChosen(choice) => GenderChoiceStep(w, uid, choice)
    case AskGender => (w, AskGenderReply)
    case RecordFeedback => (FeedbackStep(w, uid, msg), FeedbackThanks)
    case PremiumInfo => PremiumStep(w, uid, now)
    case AddPremiumHint => (w, AddPremiumHintReply)
    case FeedbackPrompt =>
      (w.(userStates := w.userStates[uid := StateOf(w.userStates, uid).(waitingForFeedback := Some(true))]),
       FeedbackPromptReply)
    case ClearHistory => (ClearHistoryStep(w, uid), HistoryClearedReply)
    case SendFeedbacks => (w, if w.feedbackFile.None? then NoFeedbackYet else FeedbackFileSent)
    case NoRights => (w, NoRightsReply)
    case Chat =>
      var (w1, r) := ChatStep(w, s, uid, msg, complete, upstream, now, false);
      (w1, ModelReply(r.reply))
  }

  // ---------------------------------------------------------------------------------------------
  // handle_text_with_limit

  /** The gate's decision once premium has been purged. */
  datatype Verdict = Admit(clearLastSummary: bool) | Deny(hours: int, minutes: int)

  /** Premium users pass; a non-premium user whose last summary is less than a day old is denied,
      with the hours and minutes left as timedelta.seconds reports them; an older last summary is
      cleared and the message passes. */
  function Gate(states: map<int, UserState>, premium: map<int, int>, uid: int, now: int): Verdict {
    if uid in premium then Admit(false)
    else
      match StateOf(states, uid).lastSummary
      case None => Admit(false)
      case Some(t) =>
        if now - t < DAY then
          var remaining := (DAY - (now - t)) % DAY;
          Deny(remaining / 3600, (remaining % 3600) / 60)
        else Admit(true)
  }

  /** The gate denies exactly a non-premium user summarised less than a day ago; the reported hours
      and minutes are below 24 and 60 and give the time left (modulo a day), rounded down to the
      minute. */
  lemma GateDenyExactly(states: map<int, UserState>, premium: map<int, int>, uid: int, now: int)
    ensures Gate(states, premium, uid, now).Deny? <==>
      uid !in premium && StateOf(states, uid).lastSummary.Some? && now - StateOf(states, uid).lastSummary.value < DAY
    ensures Gate(states, premium, uid, now) == Admit(true) <==>
      uid !in premium && StateOf(states, uid).lastSummary.Some? && now - StateOf(states, uid).lastSummary.value >= DAY
    ensures match Gate(states, premium, uid, now)
      case Deny(hours, minutes) =>
        var remaining := (DAY - (now - StateOf(states, uid).lastSummary.value)) % DAY;
        && 0 <= hours < 24 && 0 <= minutes < 60
        && hours * 3600 + minutes * 60 <= remaining < hours * 3600 + minutes * 60 + 60
      case Admit(_) => true
  {
  }

  /** handle_text_with_limit */
  function HandleTextWithLimitStep(w: World, s: Settings, uid: int, text: string,
                                   complete: seq<Message> -> Upstream<string>,
                                   upstream: string -> Upstream<string>, now: int): (World, Reply)
  {
    if ChoosingGender(w.userStates, uid) then
      var msg := Strip(text);
      if msg in GENDER_CHOICES then GenderChoiceStep(w, uid, msg) else (w, AskGenderReply)
    else
      var w1 := w.(premiumUsers := PurgeExpired(w.premiumUsers, uid, now));
      match Gate(w1.userStates, w1.premiumUsers, uid, now)
      case Deny(hours, minutes) => (w1, LimitReached(hours, minutes))
      case Admit(clear) =>
        var w2 := if clear then w1.(userStates := w1.userStates[uid := StateOf(w1.userStates, uid).(lastSummary := None)])
                  else w1;
        HandleTextStep(w2, s, uid, text, complete, upstream, now)
  }

  /** While a user is choosing a gender, only one of the three answers changes anything (it stores
      the gender and clears the flag); any other text, buttons included, only asks again. */
  lemma GenderOnboarding(w: World, s: Settings, uid: int, text: string,
                         complete: seq<Message> -> Upstream<string>, upstream: string -> Upstream<string>,
                         now: int)
    requires ChoosingGender(w.userStates, uid)
    ensures var (w1, reply) := HandleTextWithLimitStep(w, s, uid, text, complete, upstream, now);
      && (Strip(text) !in GENDER_CHOICES ==> w1 == w && reply == AskGenderReply)
      && (Strip(text) in GENDER_CHOICES ==>
            !ChoosingGender(w1.userStates, uid) && w1.genders == w.genders[uid := Strip(text)]
            && w1.premiumUsers == w.premiumUsers && w1.histories == w.histories)
    ensures HandleTextStep(w, s, uid, text, complete, upstream, now)
            == HandleTextWithLimitStep(w, s, uid, text, complete, upstream, now)
  {
  }

  /** After start, a text that is not a gender answer is met with the gender question and nothing
      else happens. */
  lemma StartAsksGender(w: World, s: Settings, uid: int, text: string,
                        complete: seq<Message> -> Upstream<string>, upstream: string -> Upstream<string>,
                        now: int)
    requires Strip(text) !in GENDER_CHOICES
    ensures ChoosingGender(StartStep(w, uid).userStates, uid)
    ensures HandleTextWithLimitStep(StartStep(w, uid), s, uid, text, complete, upstream, now)
            == (StartStep(w, uid), AskGenderReply)
  {
    GenderOnboarding(StartStep(w, uid), s, uid, text, complete, upstream, now);
  }

  /** A user still in PREMIUM_USERS after the purge always reaches handle_text, whatever their
      last_summary says. */
  lemma PremiumReachesHandleText(w: World, s: Settings, uid: int, text: string,
                                 complete: seq<Message> -> Upstream<string>,
                                 upstream: string -> Upstream<string>, now: int)
    requires !ChoosingGender(w.userStates, uid)
    requires uid in w.premiumUsers && now <= w.premiumUsers[uid]
    ensures HandleTextWithLimitStep(w, s, uid, text, complete, upstream, now)
            == HandleTextStep(w, s, uid, text, complete, upstream, now)
  {
    PurgeExpiredExact(w.premiumUsers, uid, now);
    assert w.(premiumUsers := PurgeExpired(w.premiumUsers, uid, now)) == w;
  }

  /** A locked-out user is denied for every text, menu buttons included: handle_text does not run,
      so the history, the feedback file and user_states stay as they were; only the premium purge
      happens. */
  lemma LockoutBlocksEverything(w: World, s: Settings, uid: int, text: string,
                                complete: seq<Message> -> Upstream<string>,
                                upstream: string -> Upstream<string>, now: int)
    requires !ChoosingGender(w.userStates, uid)
    requires !(uid in w.premiumUsers && now <= w.premiumUsers[uid])
    requires StateOf(w.userStates, uid).lastSummary.Some?
    requires now - StateOf(w.userStates, uid).lastSummary.value < DAY
    ensures var (w1, reply) := HandleTextWithLimitStep(w, s, uid, text, complete, upstream, now);
      && reply.LimitReached? && 0 <= reply.hours < 24 && 0 <= reply.minutes < 60
      && w1 == w.(premiumUsers := PurgeExpired(w.premiumUsers, uid, now))
      && uid !in w1.premiumUsers
  {
    var p := PurgeExpired(w.premiumUsers, uid, now);
    PurgeExpiredExact(w.premiumUsers, uid, now);
    GateDenyExactly(w.userStates, p, uid, now);
  }

  /** Once the last summary is a day old or more, the key is removed and the message is handled as
      if no lockout had ever been opened. */
  lemma ExpiredLockoutCleared(w: World, s: Settings, uid: int, text: string,
                              complete: seq<Message> -> Upstream<string>,
                              upstream: string -> Upstream<string>, now: int)
    requires !ChoosingGender(w.userStates, uid)
    requires !(uid in w.premiumUsers && now <= w.premiumUsers[uid])
    requires StateOf(w.userStates, uid).lastSummary.Some?
    requires now - StateOf(w.userStates, uid).lastSummary.value >= DAY
    ensures var cleared := w.(premiumUsers := PurgeExpired(w.premiumUsers, uid, now),
                              userStates := w.userStates[uid := StateOf(w.userStates, uid).(lastSummary := None)]);
      HandleTextWithLimitStep(w, s, uid, text, complete, upstream, now)
      == HandleTextStep(cleared, s, uid, text, complete, upstream, now)
  {
    PurgeExpiredExact(w.premiumUsers, uid, now);
  }

  // ---------------------------------------------------------------------------------------------
  // The bot itself

  class Bot {
    const settings: Settings
    var userStates: map<int, UserState>
    var premiumUsers: map<int, int>
    var histories: map<int, seq<Message>>
    var genders: map<int, string>
    var feedbackFile: Option<seq<Feedback>>
    var archive: seq<(int, seq<Message>)>

    ghost function State(): World
      reads this
    {
      World(userStates, premiumUsers, histories, genders, feedbackFile, archive)
    }

    /** Loading the module: user_states starts empty; PREMIUM_USERS and the other stores are read
        from what was saved. */
    constructor (settings: Settings, saved: World)
      ensures this.settings == settings
      ensures State() == saved.(userStates := map[])
    {
      this.settings := settings;
      userStates := map[];
      premiumUsers := saved.premiumUsers;
      histories := saved.histories;
      genders := saved.genders;
      feedbackFile := saved.feedbackFile;
      archive := saved.archive;
    }

    /** The loop of add_message that appends one entry per text. */
    static method AppendAll(h: seq<Message>, role: Role, contents: seq<string>) returns (grown: seq<Message>)
      ensures grown == h + Items(role, contents)
      ensures |grown| == |h| + |contents|
      ensures TotalChars(grown) == TotalChars(h) + Lengths(contents)
    {
      grown := h;
      for i := 0 to |contents|
        invariant grown == h + Items(role, contents[..i])
      {
        grown := grown + [Message(role, contents[i])];
        assert Items(role, contents[..i + 1]) == Items(role, contents[..i]) + [Message(role, contents[i])];
      }
      assert contents[..|contents|] == contents;
      TotalCharsConcat(h, Items(role, contents));
      TotalCharsItems(role, contents);
    }

    /** The history add_message writes after summarising: the persona prompt, the gender hint when
        a gender other than the opt-out is stored, and the summary note. */
    static method NewHistory(persona: string, gender: Option<string>, summary: string)
      returns (newHistory: seq<Message>)
      ensures newHistory == Reseeded(persona, gender, summary)
    {
      newHistory := [Message(System, persona)];
      if gender.Some? && gender.value != "" && gender.value != GENDER_UNSPECIFIED {
        newHistory := newHistory + [Message(System, GENDER_HINT_PREFIX + Lower(gender.value) + ".")];
      }
      newHistory := newHistory + [Message(System, SUMMARY_PREFIX + summary)];
    }

    method AddMessage(uid: int, role: Role, contents: seq<string>, upstream: string -> Upstream<string>,
                      now: int) returns (summarized: bool)
      modifies this
      ensures (State(), summarized) == AddMessageStep(old(State()), settings, uid, role, contents, upstream, now)
    {
      var loaded := if uid in histories then histories[uid] else [];
      var history := AppendAll(loaded, role, contents);
      ghost var r := AddMessages(loaded, role, contents, settings.persona, GenderOf(State(), uid), upstream);
      assert loaded == HistoryOf(State(), uid);
      histories := histories[uid := history];
      if TotalChars(history) > Config.MAX_CHAR_LIMIT {
        var newHistory := NewHistory(settings.persona, Get(genders, uid), Summarize(history, upstream));
        assert r == Added(newHistory, true);
        histories := histories[uid := newHistory];
        assert histories == old(histories)[uid := newHistory];
        if uid !in premiumUsers {
          userStates := userStates[uid := StateOf(userStates, uid).(lastSummary := Some(now))];
        }
        summarized := true;
      } else {
        assert r == Added(history, false);
        summarized := false;
      }
    }

    method GetGroqResponse(uid: int, prompt: string, complete: seq<Message> -> Upstream<string>,
                           upstream: string -> Upstream<string>, now: int, withUpdate: bool)
      returns (result: ChatResult)
      modifies this
      ensures (State(), result) == ChatStep(old(State()), settings, uid, prompt, complete, upstream, now, withUpdate)
    {
      var summarized := AddMessage(uid, User, [prompt], upstream, now);
      var history := if uid in histories then histories[uid] else [];
      match complete(history) {
        case Answer(text) =>
          var replySummarized := AddMessage(uid, Assistant, [text], upstream, now);
          result := ChatResult(text, summarized && uid !in premiumUsers && withUpdate);
        case _ =>
          result := ChatResult(APOLOGY, false);
      }
    }

    method Start(uid: int)
      modifies this
      ensures State() == StartStep(old(State()), uid)
    {
      if uid !in userStates {
        userStates := userStates[uid := NO_STATE];
      }
      userStates := userStates[uid := userStates[uid].(choosingGender := Some(true))];
    }

    method HandleGenderChoiceInner(uid: int, choice: string) returns (reply: Reply)
      requires uid in userStates
      modifies this
      ensures (State(), reply) == GenderChoiceStep(old(State()), uid, choice)
    {
      genders := genders[uid := choice];
      if choice == MALE || choice == FEMALE {
        reply := GenderNoted(Lower(choice));
      } else {
        reply := GenderSkipped;
      }
      userStates := userStates[uid := userStates[uid].(choosingGender := Some(false))];
    }

    method HandlePremiumSubscription(uid: int, now: int) returns (reply: Reply)
      modifies this
      ensures (State(), reply) == PremiumStep(old(State()), uid, now)
    {
      if uid in premiumUsers {
        var endDate := premiumUsers[uid];
        if now > endDate {
          premiumUsers := premiumUsers - {uid};
          reply := PremiumReply(Expired);
        } else {
          var timeLeft := endDate - now;
          reply := PremiumReply(Active(endDate, timeLeft / DAY, (timeLeft % DAY) / 3600));
        }
      } else {
        reply := PremiumReply(NotPremium);
      }
    }

    method AddPremiumUser(caller: int, args: seq<string>, now: int) returns (reply: Reply)
      modifies this
      ensures (State(), reply) == AddPremiumStep(old(State()), settings, caller, args, now)
    {
      if caller != settings.manager {
        return NoRightsReply;
      }
      if |args| == 0 {
        return InvalidUserId;
      }
      match ParseInt(args[0]) {
        case None =>
          reply := InvalidUserId;
        case Some(target) =>
          premiumUsers := premiumUsers[target := now + PREMIUM_PERIOD];
          reply := PremiumAdded(target, premiumUsers[target]);
      }
    }

    /** archive_user_history */
    method ArchiveUserHistory(uid: int)
      modifies this
      ensures uid in old(histories) ==> archive == old(archive) + [(uid, old(histories)[uid])]
      ensures uid !in old(histories) ==> archive == old(archive)
      ensures histories == old(histories) - {uid}
      ensures userStates == old(userStates) && premiumUsers == old(premiumUsers)
      ensures genders == old(genders) && feedbackFile == old(feedbackFile)
    {
      if uid in histories {
        archive := archive + [(uid, histories[uid])];
        histories := histories - {uid};
      }
    }

    /** The "Очистить историю" button. */
    method ClearUserHistory(uid: int)
      modifies this
      ensures State() == ClearHistoryStep(old(State()), uid)
    {
      ArchiveUserHistory(uid);
      if uid in userStates && userStates[uid].lastSummary.Some? {
        userStates := userStates[uid := userStates[uid].(lastSummary := None)];
      }
    }

    /** A message from a user waiting for feedback is appended to the feedback file. */
    method StoreFeedback(uid: int, msg: string)
      requires WaitingForFeedback(userStates, uid)
      modifies this
      ensures State() == FeedbackStep(old(State()), uid, msg)
    {
      var lines := if feedbackFile.Some? then feedbackFile.value else [];
      feedbackFile := Some(lines + [Feedback(uid, msg)]);
      userStates := userStates[uid := userStates[uid].(waitingForFeedback := Some(false))];
    }

    /** The "Оставить отзыв" button: the next message will be feedback. */
    method AskForFeedback(uid: int)
      modifies this
      ensures State() == old(State()).(userStates := old(userStates)[uid := StateOf(old(userStates), uid).(waitingForFeedback := Some(true))])
    {
      userStates := userStates[uid := StateOf(userStates, uid).(waitingForFeedback := Some(true))];
    }

    method HandleText(uid: int, text: string, complete: seq<Message> -> Upstream<string>,
                      upstream: string -> Upstream<string>, now: int) returns (reply: Reply)
      modifies this
      ensures (State(), reply) == HandleTextStep(old(State()), settings, uid, text, complete, upstream, now)
    {
      var msg := Strip(text);
      ghost var route := RouteOf(userStates, uid, msg, settings);
      if ChoosingGender(userStates, uid) {
        if msg in GENDER_CHOICES {
          reply := HandleGenderChoiceInner(uid, msg);
        } else {
          reply := AskGenderReply;
        }
      } else if WaitingForFeedback(userStates, uid) {
        assert route == RecordFeedback;
        StoreFeedback(uid, msg);
        reply := FeedbackThanks;
      } else if msg == PREMIUM_BUTTON {
        assert route == PremiumInfo;
        reply := HandlePremiumSubscription(uid, now);
      } else if msg == ADD_PREMIUM_BUTTON && uid == settings.manager {
        assert route == AddPremiumHint;
        reply := AddPremiumHintReply;
      } else if msg == FEEDBACK_BUTTON {
        assert route == FeedbackPrompt;
        AskForFeedback(uid);
        reply := FeedbackPromptReply;
      } else if msg == CLEAR_BUTTON {
        assert route == ClearHistory;
        ClearUserHistory(uid);
        reply := HistoryClearedReply;
      } else if msg == GET_FEEDBACK_BUTTON {
        if uid in settings.admins {
          reply := if feedbackFile.None? then NoFeedbackYet else FeedbackFileSent;
        } else {
          reply := NoRightsReply;
        }
      } else {
        assert route == Chat;
        var result := GetGroqResponse(uid, msg, complete, upstream, now, false);
        reply := ModelReply(result.reply);
      }
    }

    method HandleTextWithLimit(uid: int, text: string, complete: seq<Message> -> Upstream<string>,
                               upstream: string -> Upstream<string>, now: int) returns (reply: Reply)
      modifies this
      ensures (State(), reply) == HandleTextWithLimitStep(old(State()), settings, uid, text, complete, upstream, now)
    {
      if ChoosingGender(userStates, uid) {
        var msg := Strip(text);
        if msg in GENDER_CHOICES {
          reply := HandleGenderChoiceInner(uid, msg);
        } else {
          reply := AskGenderReply;
        }
        return;
      }
      if uid in premiumUsers {
        var endDate := premiumUsers[uid];
        if now > endDate {
          premiumUsers := premiumUsers - {uid};
        }
      }
      if uid in premiumUsers {
        reply := HandleText(uid, text, complete, upstream, now);
      } else {
        var lastSummary := StateOf(userStates, uid).lastSummary;
        if lastSummary.Some? {
          var diff := now - lastSummary.value;
          if diff < DAY {
            var remaining := (DAY - diff) % DAY;
            var hours := remaining / 3600;
            var minutes := (remaining % 3600) / 60;
            return LimitReached(hours, minutes);
          } else {
            // last_summary was found, so the user already has an entry.
            if userStates[uid].lastSummary.Some? {
              userStates := userStates[uid := userStates[uid].(lastSummary := None)];
            }
            reply := HandleText(uid, text, complete, upstream, now);
          }
        } else {
          reply := HandleText(uid, text, complete, upstream, now);
        }
      }
    }
  }
}
