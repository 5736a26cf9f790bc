/**
 * The per-user session state and its transitions: initialisation, completing
 * onboarding, submitting a chat prompt under the re-entrancy guard, and the
 * reset behind the "modify information" button. The language model is a
 * parameter: a function from the context text to an optional reply, where
 * `None` stands for a failed call.
 */
module Session {
  import opened Wrappers
  import opened Text
  import opened Profile
  import opened Prompt

  /** The transcript's message classes; only their content is ever read. */
  datatype Message =
    | SystemMessage(content: string)
    | HumanMessage(content: string)
    | AIMessage(content: string)

  /** `type(msg).__name__`, as recorded in a history snapshot. */
  function TypeName(m: Message): string
  {
    match m
    case SystemMessage(_) => "SystemMessage"
    case HumanMessage(_) => "HumanMessage"
    case AIMessage(_) => "AIMessage"
  }

  /** One archived conversation: the profile fields and (type name, content) per message. */
  datatype HistoryEntry = HistoryEntry(
    name: string,
    restrictions: seq<string>,
    notes: Option<string>,
    messages: seq<(string, string)>)

  /** The five session keys. */
  datatype SessionState = SessionState(
    onboardingComplete: bool,
    userProfile: Option<UserProfile>,
    messages: seq<Message>,
    processingMessage: bool,
    chatHistory: seq<HistoryEntry>)

  /** The raw session store, in which each of the five keys may be absent. */
  datatype StoredState = StoredState(
    onboardingComplete: Option<bool>,
    userProfile: Option<Option<UserProfile>>,
    messages: Option<seq<Message>>,
    processingMessage: Option<bool>,
    chatHistory: Option<seq<HistoryEntry>>)

  /** The store after `clear()`: no key present. */
  const Cleared: StoredState := StoredState(None, None, None, None, None)

  /** The store holding every key of `s`. */
  function Store(s: SessionState): StoredState
  {
    StoredState(Some(s.onboardingComplete), Some(s.userProfile), Some(s.messages),
      Some(s.processingMessage), Some(s.chatHistory))
  }

  /** Every key present in `st` holds the same value in `s`. */
  predicate Keeps(s: SessionState, st: StoredState)
  {
    && (st.onboardingComplete.Some? ==> s.onboardingComplete == st.onboardingComplete.value)
    && (st.userProfile.Some? ==> s.userProfile == st.userProfile.value)
    && (st.messages.Some? ==> s.messages == st.messages.value)
    && (st.processingMessage.Some? ==> s.processingMessage == st.processingMessage.value)
    && (st.chatHistory.Some? ==> s.chatHistory == st.chatHistory.value)
  }

  function GetOr<T>(o: Option<T>, default: T): T
  {
    if o.Some? then o.value else default
  }

  /**
   * `initialize_session_state`: each absent key gets its default (not onboarded,
   * no profile, no messages, not processing, no history); present keys stay.
   */
  function Initialize(st: StoredState): (s: SessionState)
    ensures Keeps(s, st)
    ensures st.onboardingComplete.None? ==> !s.onboardingComplete
    ensures st.userProfile.None? ==> s.userProfile.None?
    ensures st.messages.None? ==> s.messages == []
    ensures st.processingMessage.None? ==> !s.processingMessage
    ensures st.chatHistory.None? ==> s.chatHistory == []
  {
    SessionState(GetOr(st.onboardingComplete, false), GetOr(st.userProfile, None),
      GetOr(st.messages, []), GetOr(st.processingMessage, false), GetOr(st.chatHistory, []))
  }

  /** Re-running initialisation over a fully populated store changes nothing. */
  lemma InitializeKeepsSession(s: SessionState)
    ensures Initialize(Store(s)) == s
  {
  }

  /**
   * The "modify information" button: the store is cleared and the rerun
   * initialises it again, so nothing of the previous session survives.
   */
  function Reset(s: SessionState): (r: SessionState)
    ensures !r.onboardingComplete && r.userProfile.None? && r.messages == []
    ensures !r.processingMessage && r.chatHistory == []
  {
    Initialize(Cleared)
  }

  /**
   * The onboarding form's submit: a rejected form leaves every key untouched;
   * an accepted one stores the profile, marks onboarding complete and replaces
   * the transcript with the single system message.
   */
  function CompleteOnboarding(s: SessionState, config: Config, form: OnboardingForm)
    : (r: (SessionState, Option<ValidationError>))
    ensures r.1.Some? <==> form.userName == "" || form.selected == []
    ensures r.1.Some? ==> r.0 == s
    ensures r.1.None? ==> r.0.onboardingComplete && r.0.userProfile.Some?
    ensures r.1.None? ==> Success(r.0.userProfile.value) == BuildProfile(form)
    ensures r.1.None? ==> r.0.messages == [SystemMessage(SystemPrompt(config, r.0.userProfile.value))]
    ensures r.0.processingMessage == s.processingMessage && r.0.chatHistory == s.chatHistory
  {
    match BuildProfile(form)
    case Failure(e) => (s, Some(e))
    case Success(p) =>
      (s.(userProfile := Some(p), onboardingComplete := true,
          messages := [SystemMessage(SystemPrompt(config, p))]), None)
  }

  /** The contents of the messages, in order. */
  function Contents(ms: seq<Message>): (cs: seq<string>)
    ensures |cs| == |ms|
    ensures forall i :: 0 <= i < |ms| ==> cs[i] == ms[i].content
  {
    if |ms| == 0 then [] else [ms[0].content] + Contents(ms[1..])
  }

  lemma {:induction false} ContentsSnoc(ms: seq<Message>, m: Message)
    ensures Contents(ms + [m]) == Contents(ms) + [m.content]
    decreases |ms|
  {
    if |ms| == 0 {
      assert ms + [m] == [m];
    } else {
      assert (ms + [m])[1..] == ms[1..] + [m];
      ContentsSnoc(ms[1..], m);
    }
  }

  const UserLabel: string := "\nUsuário: "

  /** The text sent to the model: every message content joined by newlines, then the labelled prompt. */
  function ModelContext(ms: seq<Message>, prompt: string): (ctx: string)
    ensures |ms| > 0 ==> ms[0].content <= ctx
    ensures |ctx| >= |UserLabel + prompt|
    ensures ctx[|ctx| - |UserLabel + prompt|..] == UserLabel + prompt
  {
    var body := Join(Contents(ms), "\n");
    JoinStartsWithFirst(Contents(ms), "\n");
    assert (body + UserLabel + prompt)[|body|..] == UserLabel + prompt;
    body + UserLabel + prompt
  }

  /**
   * Once the user message is appended, the context holds the prompt twice:
   * as the last transcript line and again after the user label.
   */
  lemma ContextRepeatsPrompt(ms: seq<Message>, prompt: string)
    requires |ms| > 0
    ensures ModelContext(ms + [HumanMessage(prompt)], prompt)
      == Join(Contents(ms), "\n") + "\n" + prompt + UserLabel + prompt
    ensures var ctx := ModelContext(ms + [HumanMessage(prompt)], prompt);
      OccursAt(ctx, prompt, |Join(Contents(ms), "\n")| + 1)
      && OccursAt(ctx, prompt, |ctx| - |prompt|)
  {
    JoinContentsSnoc(ms, HumanMessage(prompt));
    OccursTwice(Join(Contents(ms), "\n") + "\n", prompt, UserLabel);
  }

  /** Appending a message to a non-empty transcript adds a newline and its content to the joined text. */
  lemma JoinContentsSnoc(ms: seq<Message>, m: Message)
    requires |ms| > 0
    ensures Join(Contents(ms + [m]), "\n") == Join(Contents(ms), "\n") + "\n" + m.content
  {
    ContentsSnoc(ms, m);
    JoinSnoc(Contents(ms), m.content, "\n");
  }

  /** Python truthiness of the model's reply: present and non-empty. */
  predicate Truthy(reply: Option<string>)
  {
    reply.Some? && reply.value != ""
  }

  /** The (type name, content) pairs of a transcript. */
  function MessagePairs(ms: seq<Message>): (ps: seq<(string, string)>)
    ensures |ps| == |ms|
    ensures forall i :: 0 <= i < |ms| ==> ps[i] == (TypeName(ms[i]), ms[i].content)
  {
    if |ms| == 0 then [] else [(TypeName(ms[0]), ms[0].content)] + MessagePairs(ms[1..])
  }

  /**
   * `save_chat_history`: archives the profile fields and the whole transcript.
   * Without a profile the attribute access fails, the failure is swallowed and
   * nothing is archived.
   */
  function SaveChatHistory(s: SessionState): (r: SessionState)
    ensures r.(chatHistory := s.chatHistory) == s
    ensures s.userProfile.None? ==> r.chatHistory == s.chatHistory
    ensures s.userProfile.Some? ==> r.chatHistory == s.chatHistory + [HistoryEntry(
      s.userProfile.value.name, s.userProfile.value.dietaryRestrictions,
      s.userProfile.value.additionalNotes, MessagePairs(s.messages))]
  {
    match s.userProfile
    case None => s
    case Some(p) =>
      s.(chatHistory := s.chatHistory + [HistoryEntry(p.name, p.dietaryRestrictions,
        p.additionalNotes, MessagePairs(s.messages))])
  }

  /** The first half of a submit: raise the in-flight flag and append the user message. */
  function BeginSubmit(s: SessionState, prompt: string): (r: SessionState)
    ensures r.processingMessage
    ensures r.messages == s.messages + [HumanMessage(prompt)]
    ensures r.(processingMessage := s.processingMessage, messages := s.messages) == s
  {
    s.(processingMessage := true, messages := s.messages + [HumanMessage(prompt)])
  }

  /**
   * The second half: a truthy reply becomes an assistant message and the
   * conversation is archived; in every case the in-flight flag is lowered.
   */
  function FinishSubmit(s: SessionState, reply: Option<string>): (r: SessionState)
    ensures !r.processingMessage
    ensures r.onboardingComplete == s.onboardingComplete && r.userProfile == s.userProfile
    ensures Truthy(reply) ==> r.messages == s.messages + [AIMessage(reply.value)]
    ensures !Truthy(reply) ==> r.messages == s.messages && r.chatHistory == s.chatHistory
    ensures Truthy(reply) && s.userProfile.None? ==> r.chatHistory == s.chatHistory
    ensures Truthy(reply) && s.userProfile.Some? ==> r.chatHistory == s.chatHistory + [HistoryEntry(
      s.userProfile.value.name, s.userProfile.value.dietaryRestrictions,
      s.userProfile.value.additionalNotes, MessagePairs(r.messages))]
  {
    if Truthy(reply) then
      SaveChatHistory(s.(messages := s.messages + [AIMessage(reply.value)])).(processingMessage := false)
    else s.(processingMessage := false)
  }

  /** A prompt is handled only when it is non-empty and no other one is in flight. */
  predicate Accepts(s: SessionState, prompt: string)
  {
    prompt != "" && !s.processingMessage
  }

  /**
   * `handle_user_input`: under the guard, append the user message, ask the
   * model with the context built from the updated transcript, append a truthy
   * reply and archive the conversation, then lower the in-flight flag.
   */
  function Submit(s: SessionState, prompt: string, llm: string -> Option<string>): (r: SessionState)
    ensures !Accepts(s, prompt) ==> r == s
    ensures !s.processingMessage ==> !r.processingMessage
    ensures r.onboardingComplete == s.onboardingComplete && r.userProfile == s.userProfile
    ensures Accepts(s, prompt) ==>
      var reply := llm(ModelContext(s.messages + [HumanMessage(prompt)], prompt));
      && |r.messages| == |s.messages| + (if Truthy(reply) then 2 else 1)
      && r.messages[..|s.messages| + 1] == s.messages + [HumanMessage(prompt)]
      && (Truthy(reply) ==> r.messages[|s.messages| + 1] == AIMessage(reply.value))
      && (!Truthy(reply) ==> r.chatHistory == s.chatHistory)
      && (Truthy(reply) && s.userProfile.None? ==> r.chatHistory == s.chatHistory)
      && (Truthy(reply) && s.userProfile.Some? ==>
            var p := s.userProfile.value;
            r.chatHistory == s.chatHistory + [HistoryEntry(p.name, p.dietaryRestrictions,
              p.additionalNotes, MessagePairs(r.messages))])
  {
    if !Accepts(s, prompt) then s
    else
      var busy := BeginSubmit(s, prompt);
      var r := FinishSubmit(busy, llm(ModelContext(busy.messages, prompt)));
      assert r.messages[..|s.messages| + 1] == busy.messages;
      r
  }

  /** While a prompt is in flight, a second submit is ignored. */
  lemma InFlightGuard(s: SessionState, prompt: string, again: string, llm: string -> Option<string>)
    requires Accepts(s, prompt)
    ensures Submit(BeginSubmit(s, prompt), again, llm) == BeginSubmit(s, prompt)
  {
  }

  /** The chat roles shown to the user. */
  datatype Role = User | Assistant

  /** The bubbles for a run of messages: user and assistant messages in order, system messages skipped. */
  function Bubbles(ms: seq<Message>): (bs: seq<(Role, string)>)
    ensures |bs| <= |ms|
    ensures (forall i :: 0 <= i < |ms| ==> !ms[i].SystemMessage?) ==>
      |bs| == |ms|
      && forall i :: 0 <= i < |ms| ==>
        bs[i].1 == ms[i].content && (bs[i].0 == User <==> ms[i].HumanMessage?)
  {
    if |ms| == 0 then []
    else match ms[0]
      case SystemMessage(_) => Bubbles(ms[1..])
      case HumanMessage(c) => [(User, c)] + Bubbles(ms[1..])
      case AIMessage(c) => [(Assistant, c)] + Bubbles(ms[1..])
  }

  /** `display_chat_messages`: the transcript after its first message. */
  function Visible(ms: seq<Message>): seq<(Role, string)>
  {
    if |ms| == 0 then [] else Bubbles(ms[1..])
  }

  /**
   * The session invariant: nothing in flight between events; a profile exactly
   * when onboarded; an onboarded transcript opens with the system prompt of the
   * stored profile and holds no other system message; before onboarding the
   * transcript is empty.
   */
  predicate WellFormed(config: Config, s: SessionState)
  {
    && !s.processingMessage
    && (s.onboardingComplete <==> s.userProfile.Some?)
    && (s.onboardingComplete ==>
          |s.messages| >= 1 && s.messages[0] == SystemMessage(SystemPrompt(config, s.userProfile.value)))
    && (!s.onboardingComplete ==> s.messages == [])
    && (forall i :: 1 <= i < |s.messages| ==> !s.messages[i].SystemMessage?)
  }

  /** In a well-formed session every message but the system prompt is shown, in order. */
  lemma VisibleSkipsSystemPrompt(config: Config, s: SessionState)
    requires WellFormed(config, s) && s.onboardingComplete
    ensures |Visible(s.messages)| == |s.messages| - 1
    ensures forall i :: 1 <= i < |s.messages| ==>
      Visible(s.messages)[i - 1].1 == s.messages[i].content
      && (Visible(s.messages)[i - 1].0 == User <==> s.messages[i].HumanMessage?)
  {
  }

  /** What the user can do on one run of the page. */
  datatype Event =
    | SubmitOnboarding(form: OnboardingForm)
    | Ask(prompt: string, llm: string -> Option<string>)
    | ModifyInformation

  /**
   * One run of the page: before onboarding only the form is live; afterwards
   * the chat input and the reset button are.
   */
  function Step(config: Config, s: SessionState, e: Event): SessionState
  {
    if !s.onboardingComplete then
      match e
      case SubmitOnboarding(form) => CompleteOnboarding(s, config, form).0
      case _ => s
    else
      match e
      case Ask(prompt, llm) => Submit(s, prompt, llm)
      case ModifyInformation => Reset(s)
      case SubmitOnboarding(_) => s
  }

  /** The fresh session of a first visit is well formed. */
  lemma InitialWellFormed(config: Config)
    ensures WellFormed(config, Initialize(Cleared))
  {
  }

  /**
   * Every event keeps the invariant, and while the user stays onboarded the
   * profile and the opening system message never change.
   */
  lemma StepPreservesWellFormed(config: Config, s: SessionState, e: Event)
    requires WellFormed(config, s)
    ensures WellFormed(config, Step(config, s, e))
    ensures s.onboardingComplete && Step(config, s, e).onboardingComplete ==>
      Step(config, s, e).userProfile == s.userProfile
      && Step(config, s, e).messages[0] == s.messages[0]
  {
  }

  /** The state after a sequence of page runs. */
  function Run(config: Config, s: SessionState, events: seq<Event>): SessionState
    decreases |events|
  {
    if |events| == 0 then s else Run(config, Step(config, s, events[0]), events[1..])
  }

  /** Every reachable session is well formed; in particular nothing is left in flight. */
  lemma {:induction false} RunPreservesWellFormed(config: Config, s: SessionState, events: seq<Event>)
    requires WellFormed(config, s)
    ensures WellFormed(config, Run(config, s, events))
    ensures !Run(config, s, events).processingMessage
    decreases |events|
  {
    if |events| > 0 {
      StepPreservesWellFormed(config, s, events[0]);
      RunPreservesWellFormed(config, Step(config, s, events[0]), events[1..]);
    }
  }

  /**
   * A successful first question after onboarding archives exactly three
   * messages: the system prompt, the question and the answer.
   */
  lemma FirstExchangeArchived(config: Config, s: SessionState, question: string,
                              llm: string -> Option<string>)
    requires WellFormed(config, s) && s.onboardingComplete && |s.messages| == 1
    requires question != ""
    requires Truthy(llm(ModelContext(s.messages + [HumanMessage(question)], question)))
    ensures var r := Submit(s, question, llm);
      var answer := llm(ModelContext(s.messages + [HumanMessage(question)], question)).value;
      |r.chatHistory| == |s.chatHistory| + 1
      && r.chatHistory[|s.chatHistory|].messages ==
        [("SystemMessage", s.messages[0].content), ("HumanMessage", question), ("AIMessage", answer)]
  {
  }
}
