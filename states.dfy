/** The two graph states (agents/core/states.py) and how LangGraph folds a
    node's partial update into them. In the diary `State` the message log
    has the `add_messages` reducer, so updates append to it; every other key,
    `entries` included, has no reducer and is overwritten by the last update
    that carries it. `SecretFriendState` has no reducer at all. */
module States {
  import opened Wrappers
  import opened Models

  /** A tool invocation the model attached to its message. */
  datatype ToolCall = ToolCall(name: string, args: RawArgs, id: string)

  /** The message kinds the diary graph exchanges. */
  datatype Message =
    | HumanMessage(content: string)
    | AIMessage(content: string, toolCalls: seq<ToolCall>)
    | ToolMessage(content: string, toolCallId: string)
    | SystemMessage(content: string)

  type Year = y: int | 1 <= y <= 9999 witness 1
  type Month = m: int | 1 <= m <= 12 witness 1
  type Day = d: int | 1 <= d <= 31 witness 1

  /** datetime.date. */
  datatype Date = Date(year: Year, month: Month, day: Day)

  /** The diary graph's State. Only `messages` always exists (its channel
      starts as the empty list); any other key is absent until a node or the
      caller writes it. */
  datatype State = State(
    messages: seq<Message>,
    entries: Option<seq<DiaryEntry>>,
    userName: Option<string>,
    todayDate: Option<Date>,
    writtenAt: Option<Clock>,
    oneLiner: Option<string>,
    diaryBody: Option<string>,
    finalMarkdown: Option<string>,
    emotionPieChartUrl: Option<string>,
    emotionTimelineChartUrl: Option<string>,
    emotionScoreChartUrl: Option<string>)

  /** What a diary node returns: messages to add and the keys it sets. */
  datatype Update = Update(
    messages: seq<Message>,
    entries: Option<seq<DiaryEntry>>,
    userName: Option<string>,
    todayDate: Option<Date>,
    writtenAt: Option<Clock>,
    oneLiner: Option<string>,
    diaryBody: Option<string>,
    finalMarkdown: Option<string>,
    emotionPieChartUrl: Option<string>,
    emotionTimelineChartUrl: Option<string>,
    emotionScoreChartUrl: Option<string>)

  const EmptyUpdate: Update := Update([], None, None, None, None, None, None, None, None, None, None)

  /** The overwrite keys of State (everything but `messages`). */
  datatype StateKey =
    | Entries | UserName | TodayDate | WrittenAt | OneLiner | DiaryBody
    | FinalMarkdown | PieChartUrl | TimelineChartUrl | ScoreChartUrl

  const AllStateKeys: set<StateKey> :=
    {Entries, UserName, TodayDate, WrittenAt, OneLiner, DiaryBody,
     FinalMarkdown, PieChartUrl, TimelineChartUrl, ScoreChartUrl}

  /** Whether update `u` sets key `k`. */
  predicate Sets(u: Update, k: StateKey) {
    match k
    case Entries => u.entries.Some?
    case UserName => u.userName.Some?
    case TodayDate => u.todayDate.Some?
    case WrittenAt => u.writtenAt.Some?
    case OneLiner => u.oneLiner.Some?
    case DiaryBody => u.diaryBody.Some?
    case FinalMarkdown => u.finalMarkdown.Some?
    case PieChartUrl => u.emotionPieChartUrl.Some?
    case TimelineChartUrl => u.emotionTimelineChartUrl.Some?
    case ScoreChartUrl => u.emotionScoreChartUrl.Some?
  }

  /** The overwrite keys an update carries. */
  function UpdateKeys(u: Update): set<StateKey> {
    set k | k in AllStateKeys && Sets(u, k)
  }

  /** An update that only appends messages carries no overwrite key. */
  lemma MessagesOnlyHasNoKeys(m: seq<Message>)
    ensures UpdateKeys(EmptyUpdate.(messages := m)) == {}
  {
    var u := EmptyUpdate.(messages := m);
    forall k | k in AllStateKeys ensures !Sets(u, k) {}
  }

  /** An update that only sets `final_markdown` carries that key alone. */
  lemma FinalMarkdownOnlyKey(md: string)
    ensures UpdateKeys(EmptyUpdate.(finalMarkdown := Some(md))) == {FinalMarkdown}
  {
    var u := EmptyUpdate.(finalMarkdown := Some(md));
    forall k | k in AllStateKeys ensures Sets(u, k) <==> k == FinalMarkdown {}
  }

  /** `t` holds every overwrite value that `u` carries. */
  predicate Carries(t: State, u: Update) {
    && (u.entries.Some? ==> t.entries == u.entries)
    && (u.userName.Some? ==> t.userName == u.userName)
    && (u.todayDate.Some? ==> t.todayDate == u.todayDate)
    && (u.writtenAt.Some? ==> t.writtenAt == u.writtenAt)
    && (u.oneLiner.Some? ==> t.oneLiner == u.oneLiner)
    && (u.diaryBody.Some? ==> t.diaryBody == u.diaryBody)
    && (u.finalMarkdown.Some? ==> t.finalMarkdown == u.finalMarkdown)
    && (u.emotionPieChartUrl.Some? ==> t.emotionPieChartUrl == u.emotionPieChartUrl)
    && (u.emotionTimelineChartUrl.Some? ==> t.emotionTimelineChartUrl == u.emotionTimelineChartUrl)
    && (u.emotionScoreChartUrl.Some? ==> t.emotionScoreChartUrl == u.emotionScoreChartUrl)
  }

  /** `s` and `t` agree on every overwrite key outside `keys`. */
  predicate SameOutside(s: State, t: State, keys: set<StateKey>) {
    && (Entries !in keys ==> t.entries == s.entries)
    && (UserName !in keys ==> t.userName == s.userName)
    && (TodayDate !in keys ==> t.todayDate == s.todayDate)
    && (WrittenAt !in keys ==> t.writtenAt == s.writtenAt)
    && (OneLiner !in keys ==> t.oneLiner == s.oneLiner)
    && (DiaryBody !in keys ==> t.diaryBody == s.diaryBody)
    && (FinalMarkdown !in keys ==> t.finalMarkdown == s.finalMarkdown)
    && (PieChartUrl !in keys ==> t.emotionPieChartUrl == s.emotionPieChartUrl)
    && (TimelineChartUrl !in keys ==> t.emotionTimelineChartUrl == s.emotionTimelineChartUrl)
    && (ScoreChartUrl !in keys ==> t.emotionScoreChartUrl == s.emotionScoreChartUrl)
  }

  function Overwrite<T>(prev: Option<T>, next: Option<T>): Option<T> {
    if next.Some? then next else prev
  }

  /** Folding one node's update into the state. */
  function Merge(s: State, u: Update): (r: State)
    ensures r.messages == s.messages + u.messages
    ensures Carries(r, u)
    ensures SameOutside(s, r, UpdateKeys(u))
  {
    State(
      s.messages + u.messages,
      Overwrite(s.entries, u.entries),
      Overwrite(s.userName, u.userName),
      Overwrite(s.todayDate, u.todayDate),
      Overwrite(s.writtenAt, u.writtenAt),
      Overwrite(s.oneLiner, u.oneLiner),
      Overwrite(s.diaryBody, u.diaryBody),
      Overwrite(s.finalMarkdown, u.finalMarkdown),
      Overwrite(s.emotionPieChartUrl, u.emotionPieChartUrl),
      Overwrite(s.emotionTimelineChartUrl, u.emotionTimelineChartUrl),
      Overwrite(s.emotionScoreChartUrl, u.emotionScoreChartUrl))
  }

  /** The empty update changes nothing. */
  lemma MergeEmpty(s: State)
    ensures Merge(s, EmptyUpdate) == s
  {
  }

  /** `entries` has no reducer: an update that carries only the new entry
      replaces the whole list, whatever was accumulated before. */
  lemma EntriesOverwritten(s: State, u: Update, e: DiaryEntry)
    requires s.entries.Some? && s.entries.value != []
    requires u.entries == Some([e])
    ensures Merge(s, u).entries == Some([e])
    ensures Merge(s, u).entries != Some(s.entries.value + [e])
  {
  }

  /** A run of updates folded in order, as the graph does turn by turn. */
  function ApplyAll(s: State, us: seq<Update>): State
    decreases |us|
  {
    if us == [] then s else Merge(ApplyAll(s, us[..|us| - 1]), us[|us| - 1])
  }

  function AllMessages(us: seq<Update>): seq<Message>
    decreases |us|
  {
    if us == [] then [] else AllMessages(us[..|us| - 1]) + us[|us| - 1].messages
  }

  /** The message log only grows: after any run of updates it is the old
      log followed by every update's messages, in order. */
  lemma {:induction false} ApplyAllMessages(s: State, us: seq<Update>)
    ensures ApplyAll(s, us).messages == s.messages + AllMessages(us)
    decreases |us|
  {
    if us != [] {
      ApplyAllMessages(s, us[..|us| - 1]);
    }
  }

  /** After a run of updates, `entries` is the list of the last update that
      carried one, or the old list if none did. */
  lemma {:induction false} ApplyAllEntries(s: State, us: seq<Update>)
    ensures (forall i :: 0 <= i < |us| ==> us[i].entries.None?) ==> ApplyAll(s, us).entries == s.entries
    ensures forall i :: (0 <= i < |us| && us[i].entries.Some? && (forall j :: i < j < |us| ==> us[j].entries.None?))
                        ==> ApplyAll(s, us).entries == us[i].entries
    decreases |us|
  {
    if us != [] {
      var init := us[..|us| - 1];
      ApplyAllEntries(s, init);
      assert forall i :: 0 <= i < |init| ==> init[i] == us[i];
    }
  }

  /** The letter pipeline's SecretFriendState. Nodes return a value of the
      same shape holding only the keys they set. */
  datatype FriendState = FriendState(
    diaryBody: Option<string>,
    praise: Option<string>,
    music: Option<MusicResponse>,
    quote: Option<QuoteResponse>,
    fFeedback: Option<string>,
    tFeedback: Option<string>,
    letterMarkdown: Option<string>)

  const EmptyFriend: FriendState := FriendState(None, None, None, None, None, None, None)

  datatype FriendKey = BodyKey | PraiseKey | MusicKey | QuoteKey | FFeedbackKey | TFeedbackKey | LetterKey

  /** The keys a partial letter-pipeline state carries. */
  function FriendKeys(u: FriendState): set<FriendKey> {
    (if u.diaryBody.Some? then {BodyKey} else {})
    + (if u.praise.Some? then {PraiseKey} else {})
    + (if u.music.Some? then {MusicKey} else {})
    + (if u.quote.Some? then {QuoteKey} else {})
    + (if u.fFeedback.Some? then {FFeedbackKey} else {})
    + (if u.tFeedback.Some? then {TFeedbackKey} else {})
    + (if u.letterMarkdown.Some? then {LetterKey} else {})
  }

  /** Plain overwrite on every key. */
  function MergeFriend(s: FriendState, u: FriendState): (r: FriendState)
    ensures FriendKeys(r) == FriendKeys(s) + FriendKeys(u)
    ensures u.diaryBody.Some? ==> r.diaryBody == u.diaryBody
    ensures u.diaryBody.None? ==> r.diaryBody == s.diaryBody
    ensures u.praise.Some? ==> r.praise == u.praise
    ensures u.praise.None? ==> r.praise == s.praise
    ensures u.music.Some? ==> r.music == u.music
    ensures u.music.None? ==> r.music == s.music
    ensures u.quote.Some? ==> r.quote == u.quote
    ensures u.quote.None? ==> r.quote == s.quote
    ensures u.fFeedback.Some? ==> r.fFeedback == u.fFeedback
    ensures u.fFeedback.None? ==> r.fFeedback == s.fFeedback
    ensures u.tFeedback.Some? ==> r.tFeedback == u.tFeedback
    ensures u.tFeedback.None? ==> r.tFeedback == s.tFeedback
    ensures u.letterMarkdown.Some? ==> r.letterMarkdown == u.letterMarkdown
    ensures u.letterMarkdown.None? ==> r.letterMarkdown == s.letterMarkdown
  {
    FriendState(
      Overwrite(s.diaryBody, u.diaryBody),
      Overwrite(s.praise, u.praise),
      Overwrite(s.music, u.music),
      Overwrite(s.quote, u.quote),
      Overwrite(s.fFeedback, u.fFeedback),
      Overwrite(s.tFeedback, u.tFeedback),
      Overwrite(s.letterMarkdown, u.letterMarkdown))
  }

  /** Writing back a state's own values changes nothing. */
  lemma MergeFriendSelf(s: FriendState)
    ensures MergeFriend(s, s) == s
  {
  }

  /** Updates that set disjoint keys can be applied in either order. */
  lemma MergeFriendCommutes(s: FriendState, p: FriendState, q: FriendState)
    requires FriendKeys(p) !! FriendKeys(q)
    ensures MergeFriend(MergeFriend(s, p), q) == MergeFriend(MergeFriend(s, q), p)
  {
    assert p.diaryBody.None? || q.diaryBody.None?;
    assert p.praise.None? || q.praise.None?;
    assert p.music.None? || q.music.None?;
    assert p.quote.None? || q.quote.None?;
    assert p.fFeedback.None? || q.fFeedback.None?;
    assert p.tFeedback.None? || q.tFeedback.None?;
    assert p.letterMarkdown.None? || q.letterMarkdown.None?;
  }
}
