/** The diary graph's deterministic nodes (agents/diary/diary_nodes.py):
    keyword suggestion, entry accumulation, the body/summary step up to its
    model calls, and the data behind the three emotion charts. Model calls
    are parameters; each node returns the partial update LangGraph merges,
    or the exception it raises. */
module DiaryNodes {
  import opened Wrappers
  import opened Text
  import opened Models
  import opened States
  import opened Tools
  import opened TimeSort

  /** What a diary node can raise. `NoToolCall` stands for the IndexError or
      AttributeError of `messages[-1].tool_calls[0]` on a log whose last
      message carries no tool call. */
  datatype NodeError =
    | MissingKey(key: string)
    | NoToolCall
    | SchemaError(fields: seq<string>)

  /** `state["messages"][-1].tool_calls[0]`, when it exists. */
  function TriggeringCall(messages: seq<Message>): (r: Option<ToolCall>)
    ensures r.Some? <==> messages != [] && messages[|messages| - 1].AIMessage?
                         && messages[|messages| - 1].toolCalls != []
    ensures r.Some? ==> r.value == messages[|messages| - 1].toolCalls[0]
  {
    if messages != [] && messages[|messages| - 1].AIMessage? && messages[|messages| - 1].toolCalls != []
    then Some(messages[|messages| - 1].toolCalls[0])
    else None
  }

  const KeywordPromptStart: string := "<RAW>추천된 감정 키워드는 다음과 같아: \n["
  const KeywordPromptEnd: string := "] \n이 중에서 1~3개를 골라줘.</RAW>"

  /** SuggestKeywordsNode: invokes the keyword tool with the call's
      arguments (the tool checks `core_emotion` against the literal) and
      answers the call with the keywords wrapped in the <RAW> marker. */
  function SuggestKeywordsNode(s: State): (r: Result<Update, NodeError>)
    ensures TriggeringCall(s.messages).None? ==> r == Err(NoToolCall)
    ensures r.Ok? <==> TriggeringCall(s.messages).Some?
                       && TriggeringCall(s.messages).value.args.coreEmotion.Some?
                       && TriggeringCall(s.messages).value.args.coreEmotion.value in EmotionKeywordMap
    ensures r.Ok? ==> && UpdateKeys(r.value) == {}
                      && |r.value.messages| == 1 && r.value.messages[0].ToolMessage?
                      && r.value.messages[0].toolCallId == TriggeringCall(s.messages).value.id
                      && r.value.messages[0].content == KeywordPromptStart
                           + Join(", ", EmotionKeywordMap[TriggeringCall(s.messages).value.args.coreEmotion.value])
                           + KeywordPromptEnd
  {
    match TriggeringCall(s.messages)
    case None => Err(NoToolCall)
    case Some(call) =>
      if call.args.coreEmotion.None? || ParseEmotion(call.args.coreEmotion.value).None? then
        Err(SchemaError(["core_emotion"]))
      else
        var keywords := SuggestKeywords(call.args.coreEmotion.value);
        var content := KeywordPromptStart + Join(", ", keywords) + KeywordPromptEnd;
        MessagesOnlyHasNoKeys([ToolMessage(content, call.id)]);
        Ok(EmptyUpdate.(messages := [ToolMessage(content, call.id)]))
  }

  const AskForMore: string := "혹시 오늘 다른 기억에 남는 일도 있었어?"

  /** CreateEntryNode: validates the call's arguments as a DiaryEntry, reads
      the accumulated list (absent counts as empty) and returns the whole
      list with the new entry at the end, plus one acknowledgment. */
  function CreateEntryNode(s: State): (r: Result<Update, NodeError>)
    ensures TriggeringCall(s.messages).None? ==> r == Err(NoToolCall)
    ensures r.Ok? <==> TriggeringCall(s.messages).Some? && MeetsEntrySchema(TriggeringCall(s.messages).value.args)
    ensures r.Ok? ==>
              var call := TriggeringCall(s.messages).value;
              var prior := s.entries.GetOr([]);
              && UpdateKeys(r.value) == {Entries}
              && r.value.messages == [ToolMessage(AskForMore, call.id)]
              && |r.value.entries.value| == |prior| + 1
              && r.value.entries.value[..|prior|] == prior
              && Ok(r.value.entries.value[|prior|]) == ValidateEntry(call.args)
  {
    match TriggeringCall(s.messages)
    case None => Err(NoToolCall)
    case Some(call) =>
      match ValidateEntry(call.args)
      case Err(fields) => Err(SchemaError(fields))
      case Ok(entry) =>
        var existing := s.entries.GetOr([]);
        Ok(EmptyUpdate.(messages := [ToolMessage(AskForMore, call.id)],
                        entries := Some(existing + [entry])))
  }

  /** The two-layer discipline: once the graph merges CreateEntryNode's
      update, the state's list is the old one plus the new entry, the log
      gained exactly the acknowledgment, nothing else changed, and if every
      accumulated entry met the schema bounds, every one still does. */
  lemma CreateEntryAccumulates(s: State)
    requires CreateEntryNode(s).Ok?
    ensures var t := Merge(s, CreateEntryNode(s).value);
            var e := ValidateEntry(TriggeringCall(s.messages).value.args).value;
            && t.entries == Some(s.entries.GetOr([]) + [e])
            && t.messages == s.messages + [ToolMessage(AskForMore, TriggeringCall(s.messages).value.id)]
            && SameOutside(s, t, {Entries})
            && (AllValid(s.entries.GetOr([])) ==> AllValid(t.entries.value))
  {
    var u := CreateEntryNode(s).value;
    var prior := s.entries.GetOr([]);
    var e := ValidateEntry(TriggeringCall(s.messages).value.args).value;
    assert u.entries.value == prior + [e];
  }

  const NoEventsLine: string := "기록된 사건이 없습니다."
  const NoDiaryBody: string := "오늘의 일기를 작성할 수 없습니다."

  /** The update of GenerateDiaryBodyNode together with the entry lists it
      handed to the model: first to the summary chain, then to the body
      chain. */
  datatype BodyOutcome = BodyOutcome(update: Update, modelInputs: seq<seq<DiaryEntry>>)

  /** GenerateDiaryBodyNode, with the summary and body chains as parameters
      (each maps the entry list it is given to the text the model returns). */
  function GenerateDiaryBodyNode(s: State, summarize: seq<DiaryEntry> -> string,
                                 narrate: seq<DiaryEntry> -> string): (r: BodyOutcome)
    ensures UpdateKeys(r.update) == {OneLiner, DiaryBody} && r.update.messages == []
    ensures s.entries.GetOr([]) == [] ==> && r.modelInputs == []
                                          && r.update.oneLiner == Some(NoEventsLine)
                                          && r.update.diaryBody == Some(NoDiaryBody)
    ensures s.entries.GetOr([]) != [] ==>
              && |r.modelInputs| == 2 && r.modelInputs[0] == r.modelInputs[1]
              && SortedByTime(r.modelInputs[0])
              && SameOrderPerTime(s.entries.value, r.modelInputs[0])
              && multiset(r.modelInputs[0]) == multiset(s.entries.value)
              && r.update.oneLiner == Some(summarize(r.modelInputs[0]))
              && r.update.diaryBody == Some(narrate(r.modelInputs[1]))
  {
    var entries := s.entries.GetOr([]);
    if entries == [] then
      BodyOutcome(EmptyUpdate.(oneLiner := Some(NoEventsLine), diaryBody := Some(NoDiaryBody)), [])
    else
      var sorted := SortByTime(entries);
      SortByTimeCorrect(entries);
      BodyOutcome(EmptyUpdate.(oneLiner := Some(summarize(sorted)), diaryBody := Some(narrate(sorted))),
                  [sorted, sorted])
  }

  /** emotion_to_index: the eight emotions on one axis, from anger (0) to
      joy (7). */
  function EmotionIndex(e: Emotion): (i: nat)
    ensures i < 8 && EmotionAt(i) == e
  {
    match e
    case Anger => 0
    case Sadness => 1
    case Fear => 2
    case Displeasure => 3
    case Ordinary => 4
    case Surprise => 5
    case Flutter => 6
    case Joy => 7
  }

  /** The emotion on each tick of the axis. */
  function EmotionAt(i: nat): Emotion
    requires i < 8
  {
    [Anger, Sadness, Fear, Displeasure, Ordinary, Surprise, Flutter, Joy][i]
  }

  /** The axis is a one-to-one labelling of 0..7 by the emotions. */
  lemma EmotionIndexBijective(e: Emotion, i: nat)
    requires i < 8
    ensures EmotionAt(EmotionIndex(e)) == e
    ensures EmotionIndex(EmotionAt(i)) == i
  {
  }

  /** `t.strftime("%H:%M")`. */
  function TimeLabel(t: Clock): (r: string)
    ensures |r| == 5 && r[2] == ':' && IsDigits(r[..2]) && IsDigits(r[3..])
    ensures ParseDigits(r[..2]) == t.hour && ParseDigits(r[3..]) == t.minute
  {
    Pad2RoundTrip(t.hour);
    Pad2RoundTrip(t.minute);
    var r := Pad2(t.hour) + ":" + Pad2(t.minute);
    assert r[..2] == Pad2(t.hour) && r[3..] == Pad2(t.minute);
    r
  }

  /** How many entries have core emotion `e`. */
  function Count(es: seq<DiaryEntry>, e: Emotion): nat
    decreases |es|
  {
    if es == [] then 0
    else Count(es[..|es| - 1], e) + (if es[|es| - 1].coreEmotion == e then 1 else 0)
  }

  /** `Counter(e.core_emotion for e in entries)`: the emotions that occur,
      each with its number of entries. */
  function Tally(es: seq<DiaryEntry>): (m: map<Emotion, nat>)
    ensures forall e :: e in m <==> Count(es, e) > 0
    ensures forall e :: e in m ==> m[e] == Count(es, e)
  {
    map e | e in AllEmotions && Count(es, e) > 0 :: Count(es, e)
  }

  /** The series behind the three charts. */
  datatype ChartSeries = ChartSeries(
    counts: map<Emotion, nat>,
    timeLabels: seq<string>,
    emotionIndices: seq<int>,
    emotionScores: seq<int>)

  /** The per-entry series, in time order, and the tally. */
  function Series(entries: seq<DiaryEntry>): (r: ChartSeries)
    ensures var sorted := SortByTime(entries);
            && r.counts == Tally(entries)
            && |r.timeLabels| == |entries| && |r.emotionIndices| == |entries| && |r.emotionScores| == |entries|
            && (forall i :: 0 <= i < |sorted| ==>
                  && 0 <= r.emotionIndices[i] < 8
                  && EmotionAt(r.emotionIndices[i]) == sorted[i].coreEmotion
                  && r.emotionScores[i] == sorted[i].emotionScore
                  && r.timeLabels[i] == TimeLabel(sorted[i].timePeriod))
  {
    var sorted := SortByTime(entries);
    ChartSeries(
      Tally(entries),
      seq(|sorted|, i requires 0 <= i < |sorted| => TimeLabel(sorted[i].timePeriod)),
      seq(|sorted|, i requires 0 <= i < |sorted| => EmotionIndex(sorted[i].coreEmotion) as int),
      seq(|sorted|, i requires 0 <= i < |sorted| => sorted[i].emotionScore))
  }

  /** The data preparation of GenerateEmotionChartsNode: `state["entries"]`
      and then `state["today_date"]` (for the file names) raise when the key
      is absent. */
  function ChartData(s: State): (r: Result<ChartSeries, NodeError>)
    ensures s.entries.None? <==> r == Err(MissingKey("entries"))
    ensures s.entries.Some? && s.todayDate.None? <==> r == Err(MissingKey("today_date"))
    ensures r.Ok? <==> s.entries.Some? && s.todayDate.Some?
    ensures r.Ok? ==> r.value == Series(s.entries.value)
  {
    match s.entries
    case None => Err(MissingKey("entries"))
    case Some(entries) =>
      if s.todayDate.None? then Err(MissingKey("today_date")) else Ok(Series(entries))
  }

  /** Sum of the tally over the given emotions, zero for those absent. */
  function TallyTotal(m: map<Emotion, nat>, emotions: seq<Emotion>): nat
    decreases |emotions|
  {
    if emotions == [] then 0
    else TallyTotal(m, emotions[1..]) + (if emotions[0] in m then m[emotions[0]] else 0)
  }

  function CountOver(es: seq<DiaryEntry>, emotions: seq<Emotion>): nat
    decreases |emotions|
  {
    if emotions == [] then 0 else CountOver(es, emotions[1..]) + Count(es, emotions[0])
  }

  function Occurrences(emotions: seq<Emotion>, e: Emotion): nat
    decreases |emotions|
  {
    if emotions == [] then 0 else Occurrences(emotions[1..], e) + (if emotions[0] == e then 1 else 0)
  }

  lemma {:induction false} CountOverSnoc(es: seq<DiaryEntry>, x: DiaryEntry, emotions: seq<Emotion>)
    ensures CountOver(es + [x], emotions) == CountOver(es, emotions) + Occurrences(emotions, x.coreEmotion)
    decreases |emotions|
  {
    if emotions != [] {
      CountOverSnoc(es, x, emotions[1..]);
      assert (es + [x])[..|es + [x]| - 1] == es;
    }
  }

  lemma {:induction false} OccurrencesAbsent(emotions: seq<Emotion>, e: Emotion)
    requires e !in emotions
    ensures Occurrences(emotions, e) == 0
    decreases |emotions|
  {
    if emotions != [] {
      assert e !in emotions[1..] by {
        assert forall k :: 0 <= k < |emotions| - 1 ==> emotions[1..][k] == emotions[k + 1];
      }
      OccurrencesAbsent(emotions[1..], e);
    }
  }

  lemma {:induction false} OccurrencesDistinct(emotions: seq<Emotion>, e: Emotion)
    requires e in emotions
    requires forall i, j :: 0 <= i < j < |emotions| ==> emotions[i] != emotions[j]
    ensures Occurrences(emotions, e) == 1
    decreases |emotions|
  {
    var rest := emotions[1..];
    assert forall k :: 0 <= k < |rest| ==> rest[k] == emotions[k + 1];
    if emotions[0] == e {
      OccurrencesAbsent(rest, e);
    } else {
      OccurrencesDistinct(rest, e);
    }
  }

  /** Every emotion sits exactly once on the category axis. */
  lemma OccursOnce(e: Emotion)
    ensures Occurrences(AllEmotions, e) == 1
  {
    EmotionLiteral(e, "");
    OccurrencesDistinct(AllEmotions, e);
  }

  lemma {:induction false} CountOverNothing(emotions: seq<Emotion>)
    ensures CountOver([], emotions) == 0
    decreases |emotions|
  {
    if emotions != [] {
      CountOverNothing(emotions[1..]);
    }
  }

  /** Over a list naming every emotion exactly once, the counts add up to
      the number of entries. */
  lemma {:induction false} CountOverEach(es: seq<DiaryEntry>, emotions: seq<Emotion>)
    requires forall e :: Occurrences(emotions, e) == 1
    ensures CountOver(es, emotions) == |es|
    decreases |es|
  {
    if es != [] {
      var init, last := es[..|es| - 1], es[|es| - 1];
      CountOverEach(init, emotions);
      CountOverSnoc(init, last, emotions);
      assert init + [last] == es;
    } else {
      CountOverNothing(emotions);
    }
  }

  lemma {:induction false} TallyTotalIsCountOver(es: seq<DiaryEntry>, emotions: seq<Emotion>)
    ensures TallyTotal(Tally(es), emotions) == CountOver(es, emotions)
    decreases |emotions|
  {
    if emotions != [] {
      TallyTotalIsCountOver(es, emotions[1..]);
    }
  }

  /** The pie chart accounts for every entry exactly once: the tallies over
      the eight emotions sum to the number of entries. */
  lemma TallySumsToEntries(es: seq<DiaryEntry>)
    ensures TallyTotal(Tally(es), AllEmotions) == |es|
  {
    TallyTotalIsCountOver(es, AllEmotions);
    forall e ensures Occurrences(AllEmotions, e) == 1 {
      OccursOnce(e);
    }
    CountOverEach(es, AllEmotions);
  }

  /** With valid entries every plotted score lies on the 0..100 axis. */
  lemma ChartScoresInRange(s: State)
    requires s.entries.Some? && s.todayDate.Some? && AllValid(s.entries.value)
    ensures ChartData(s).Ok?
    ensures forall i :: 0 <= i < |ChartData(s).value.emotionScores| ==> 0 <= ChartData(s).value.emotionScores[i] <= 100
  {
    SortKeepsValid(s.entries.value);
  }
}
