/** The records the diary pipeline exchanges (agents/core/models.py): the
    companion and diary-entry schemas with their bounds, the eight core
    emotions with their keyword table, and the music and quote responses
    of the letter pipeline. Each schema is a record of typed fields plus a
    validation function from the raw tool-call arguments, which may lack
    fields or break bounds. */
module Models {
  import opened Wrappers
  import opened Text

  /** CoreEmotionType, in the order the literal type lists them:
      기쁨 joy, 설렘 flutter, 평범함 ordinary, 놀라움 surprise,
      불쾌함 displeasure, 두려움 fear, 슬픔 sadness, 분노 anger. */
  datatype Emotion = Joy | Flutter | Ordinary | Surprise | Displeasure | Fear | Sadness | Anger

  const AllEmotions: seq<Emotion> := [Joy, Flutter, Ordinary, Surprise, Displeasure, Fear, Sadness, Anger]

  /** The literal string of each core emotion. */
  function EmotionName(e: Emotion): string {
    match e
    case Joy => "기쁨"
    case Flutter => "설렘"
    case Ordinary => "평범함"
    case Surprise => "놀라움"
    case Displeasure => "불쾌함"
    case Fear => "두려움"
    case Sadness => "슬픔"
    case Anger => "분노"
  }

  /** Validation of a string against the CoreEmotionType literal. */
  function ParseEmotion(s: string): (r: Option<Emotion>)
    ensures r.Some? ==> EmotionName(r.value) == s
  {
    if s == "기쁨" then Some(Joy)
    else if s == "설렘" then Some(Flutter)
    else if s == "평범함" then Some(Ordinary)
    else if s == "놀라움" then Some(Surprise)
    else if s == "불쾌함" then Some(Displeasure)
    else if s == "두려움" then Some(Fear)
    else if s == "슬픔" then Some(Sadness)
    else if s == "분노" then Some(Anger)
    else None
  }

  /** The literal accepts exactly the eight names, each naming its own emotion,
      and the list of all emotions holds each of them once. */
  lemma EmotionLiteral(e: Emotion, s: string)
    ensures ParseEmotion(EmotionName(e)) == Some(e)
    ensures ParseEmotion(s).Some? <==> exists d :: d in AllEmotions && EmotionName(d) == s
    ensures e in AllEmotions && |AllEmotions| == 8
    ensures forall i, j :: 0 <= i < j < |AllEmotions| ==> AllEmotions[i] != AllEmotions[j]
  {
    if ParseEmotion(s).Some? {
      var d := ParseEmotion(s).value;
      assert d in AllEmotions;
    }
  }

  /** emotion_keyword_map: suggested keywords per core emotion. */
  const EmotionKeywordMap: map<string, seq<string>> := map[
      "기쁨" := ["기분좋은", "즐거운", "고마운", "홀가분한", "사랑스러운", "재밌는", "기쁜", "뿌듯한", "속시원한", "만족스러운", "신나는", "행복한", "감동받은", "날아갈 것 같은"],
      "설렘" := ["몽글몽글한", "두근거리는", "간질간질한", "설레는", "흥미로운", "신나는", "기대되는", "궁금한", "긴장되는", "안달나는", "텐션 높은", "간절한 마음의"],
      "평범함" := ["잔잔한", "별 일 없는", "나쁘지 않은", "그저 그런", "만족스러운", "무난한", "피곤한", "괜찮은", "싱숭생숭한", "소소한", "평범한", "안정감이 드는", "편안한"],
      "놀라움" := ["당황스러운", "어이 없는", "부끄러운", "심쿵한", "깜짝 놀란", "어안이 벙벙한", "멘탈 무너지는", "만감이 교차하는", "기가 막히는", "소름끼치는", "상상을 초월하는", "골때리는", "폭풍같은"],
      "불쾌함" := ["피곤한", "지치는", "귀찮은", "재미없는", "지루한", "불편한", "불쾌한", "찝찝한", "소외감 느끼는", "우울한", "지긋지긋한", "토나오는", "기분 더러운"],
      "두려움" := ["망설여지는", "걱정되는", "불안한", "심란한", "긴장되는", "막막한", "두려운", "큰일 난 것 같은", "겁나는", "무서운", "초조한", "쫄리는", "숨막히는", "도망치고 싶은", "끝이 보이지 않는"],
      "슬픔" := ["무기력한", "실망스러운", "속상한", "외로운", "마음아픈", "후회되는", "힘든", "서러운", "슬픈", "허탈한", "막막한", "우울한", "혼자인 것 같은", "울고싶은", "절망적인", "그리운", "공허한", "세상이 무너진 것 같은"],
      "분노" := ["답답한", "짜증나는", "신경질나는", "어이없는", "이해할 수 없는", "화나는", "한심한", "킹받는", "억울한", "기분 더러운", "질투나는", "분한", "빡치는", "소리지르고 싶은"]
    ]

  /** Every key of the table has at least one keyword to suggest. */
  lemma KeywordListsNonEmpty()
    ensures forall s :: s in EmotionKeywordMap ==> EmotionKeywordMap[s] != []
  {
  }

  /** The table is keyed by exactly the eight core emotions, and every
      emotion has at least one keyword to suggest. */
  lemma KeywordMapShape()
    ensures forall s :: s in EmotionKeywordMap <==> ParseEmotion(s).Some?
    ensures forall s :: s in EmotionKeywordMap ==> EmotionKeywordMap[s] != []
  {
    KeywordListsNonEmpty();
  }

  /** datetime.time: the four fields the ordering of times looks at. */
  type Hour = h: int | 0 <= h < 24
  type Minute = m: int | 0 <= m < 60
  type Second = s: int | 0 <= s < 60
  type Microsecond = u: int | 0 <= u < 1000000

  datatype Clock = Clock(hour: Hour, minute: Minute, second: Second, microsecond: Microsecond)

  /** Position of a time of day on the microsecond axis. */
  function TimeKey(t: Clock): nat {
    ((t.hour * 60 + t.minute) * 60 + t.second) * 1000000 + t.microsecond
  }

  /** Python compares times field by field, hour first. */
  predicate ClockLe(a: Clock, b: Clock) {
    a.hour < b.hour || (a.hour == b.hour && (a.minute < b.minute
    || (a.minute == b.minute && (a.second < b.second
    || (a.second == b.second && a.microsecond <= b.microsecond)))))
  }

  /** Ordering by TimeKey is Python's ordering of times, and equal keys are
      equal times. */
  lemma TimeKeyOrder(a: Clock, b: Clock)
    ensures TimeKey(a) <= TimeKey(b) <==> ClockLe(a, b)
    ensures TimeKey(a) == TimeKey(b) <==> a == b
  {
  }

  /** A time_period before validation: four integers, not yet range checked. */
  datatype RawClock = RawClock(hour: int, minute: int, second: int, microsecond: int)

  function ToClock(t: RawClock): (r: Option<Clock>)
    ensures r.Some? <==> 0 <= t.hour < 24 && 0 <= t.minute < 60 && 0 <= t.second < 60
                         && 0 <= t.microsecond < 1000000
    ensures r.Some? ==> r.value.hour == t.hour && r.value.minute == t.minute
                        && r.value.second == t.second && r.value.microsecond == t.microsecond
  {
    if 0 <= t.hour < 24 && 0 <= t.minute < 60 && 0 <= t.second < 60 && 0 <= t.microsecond < 1000000
    then Some(Clock(t.hour, t.minute, t.second, t.microsecond))
    else None
  }

  /** Companion: name and relationship are required, note defaults to "". */
  datatype Companion = Companion(name: string, relationship: string, note: string)

  datatype RawCompanion = RawCompanion(name: Option<string>, relationship: Option<string>, note: Option<string>)

  function ValidateCompanion(c: RawCompanion): (r: Option<Companion>)
    ensures r.Some? <==> c.name.Some? && c.relationship.Some?
    ensures r.Some? ==> r.value.name == c.name.value && r.value.relationship == c.relationship.value
    ensures r.Some? ==> r.value.note == c.note.GetOr("")
    ensures r.Some? && c.note.None? ==> r.value.note == ""
  {
    if c.name.Some? && c.relationship.Some? then
      Some(Companion(c.name.value, c.relationship.value, c.note.GetOr("")))
    else None
  }

  /** DiaryEntry: one event of the day. */
  datatype DiaryEntry = DiaryEntry(
    eventTitle: string,
    timePeriod: Clock,
    coreEmotion: Emotion,
    emotionKeywords: seq<string>,
    emotionScore: int,
    companions: seq<Companion>,
    thoughts: string,
    reflection: string,
    summary: string)

  /** The field bounds the DiaryEntry schema enforces. */
  predicate ValidEntry(e: DiaryEntry) {
    && 1 <= |e.eventTitle| <= 50
    && 1 <= |e.emotionKeywords| <= 3
    && 0 <= e.emotionScore <= 100
    && |e.thoughts| <= 300
    && |e.reflection| <= 300
    && |e.summary| <= 150
  }

  predicate AllValid(es: seq<DiaryEntry>) {
    forall i :: 0 <= i < |es| ==> ValidEntry(es[i])
  }

  /** The arguments of a `DiaryEntry` tool call, as decoded from the model's
      JSON: every field may be missing, and nothing is range checked yet. */
  datatype RawArgs = RawArgs(
    eventTitle: Option<string>,
    timePeriod: Option<RawClock>,
    coreEmotion: Option<string>,
    emotionKeywords: Option<seq<string>>,
    emotionScore: Option<int>,
    companions: Option<seq<RawCompanion>>,
    thoughts: Option<string>,
    reflection: Option<string>,
    summary: Option<string>)

  /** The schema's requirements, field by field, as one condition. */
  predicate MeetsEntrySchema(a: RawArgs) {
    && a.eventTitle.Some? && 1 <= |a.eventTitle.value| <= 50
    && a.timePeriod.Some? && 0 <= a.timePeriod.value.hour < 24 && 0 <= a.timePeriod.value.minute < 60
    && 0 <= a.timePeriod.value.second < 60 && 0 <= a.timePeriod.value.microsecond < 1000000
    && a.coreEmotion.Some? && ParseEmotion(a.coreEmotion.value).Some?
    && a.emotionKeywords.Some? && 1 <= |a.emotionKeywords.value| <= 3
    && a.emotionScore.Some? && 0 <= a.emotionScore.value <= 100
    && a.companions.Some?
    && (forall c :: c in a.companions.value ==> c.name.Some? && c.relationship.Some?)
    && a.thoughts.Some? && |a.thoughts.value| <= 300
    && a.reflection.Some? && |a.reflection.value| <= 300
    && a.summary.Some? && |a.summary.value| <= 150
  }

  predicate CompanionsOk(cs: seq<RawCompanion>) {
    forall i :: 0 <= i < |cs| ==> ValidateCompanion(cs[i]).Some?
  }

  /** The locations pydantic reports, in field order; empty when the
      arguments validate. */
  function EntryErrors(a: RawArgs): seq<string> {
    (if a.eventTitle.None? || !(1 <= |a.eventTitle.value| <= 50) then ["event_title"] else [])
    + (if a.timePeriod.None? || ToClock(a.timePeriod.value).None? then ["time_period"] else [])
    + (if a.coreEmotion.None? || ParseEmotion(a.coreEmotion.value).None? then ["core_emotion"] else [])
    + (if a.emotionKeywords.None? || !(1 <= |a.emotionKeywords.value| <= 3) then ["emotion_keywords"] else [])
    + (if a.emotionScore.None? || !(0 <= a.emotionScore.value <= 100) then ["emotion_score"] else [])
    + (if a.companions.None? || !CompanionsOk(a.companions.value) then ["companions"] else [])
    + (if a.thoughts.None? || |a.thoughts.value| > 300 then ["thoughts"] else [])
    + (if a.reflection.None? || |a.reflection.value| > 300 then ["reflection"] else [])
    + (if a.summary.None? || |a.summary.value| > 150 then ["summary"] else [])
  }

  /** `DiaryEntry.model_validate(args)`: the entry, or the list of failing
      fields. */
  function ValidateEntry(a: RawArgs): (r: Result<DiaryEntry, seq<string>>)
    ensures r.Ok? <==> MeetsEntrySchema(a)
    ensures r.Ok? ==> ValidEntry(r.value)
    ensures r.Err? ==> r.error != []
    ensures r.Ok? ==> && r.value.eventTitle == a.eventTitle.value
                      && r.value.timePeriod.hour == a.timePeriod.value.hour
                      && r.value.timePeriod.minute == a.timePeriod.value.minute
                      && r.value.timePeriod.second == a.timePeriod.value.second
                      && r.value.timePeriod.microsecond == a.timePeriod.value.microsecond
                      && EmotionName(r.value.coreEmotion) == a.coreEmotion.value
                      && r.value.emotionKeywords == a.emotionKeywords.value
                      && r.value.emotionScore == a.emotionScore.value
                      && |r.value.companions| == |a.companions.value|
                      && (forall i :: 0 <= i < |a.companions.value| ==>
                            ValidateCompanion(a.companions.value[i]) == Some(r.value.companions[i]))
                      && r.value.thoughts == a.thoughts.value
                      && r.value.reflection == a.reflection.value
                      && r.value.summary == a.summary.value
  {
    var errs := EntryErrors(a);
    if errs == [] then
      assert a.companions.Some? && CompanionsOk(a.companions.value);
      var cs := a.companions.value;
      Ok(DiaryEntry(
        a.eventTitle.value,
        ToClock(a.timePeriod.value).value,
        ParseEmotion(a.coreEmotion.value).value,
        a.emotionKeywords.value,
        a.emotionScore.value,
        seq(|cs|, i requires 0 <= i < |cs| => ValidateCompanion(cs[i]).value),
        a.thoughts.value,
        a.reflection.value,
        a.summary.value))
    else Err(errs)
  }

  /** MusicResponse: every field is required. */
  datatype MusicResponse = MusicResponse(title: string, artist: string, url: string, reason: string)

  datatype RawMusic = RawMusic(title: Option<string>, artist: Option<string>, url: Option<string>, reason: Option<string>)

  function ValidateMusic(m: RawMusic): (r: Option<MusicResponse>)
    ensures r.Some? <==> m.title.Some? && m.artist.Some? && m.url.Some? && m.reason.Some?
    ensures r.Some? ==> r.value == MusicResponse(m.title.value, m.artist.value, m.url.value, m.reason.value)
  {
    if m.title.Some? && m.artist.Some? && m.url.Some? && m.reason.Some? then
      Some(MusicResponse(m.title.value, m.artist.value, m.url.value, m.reason.value))
    else None
  }

  /** QuoteResponse: every field is required; nothing checks the author's
      value beyond its presence. */
  datatype QuoteResponse = QuoteResponse(quote: string, author: string, explanation: string)

  datatype RawQuote = RawQuote(quote: Option<string>, author: Option<string>, explanation: Option<string>)

  function ValidateQuote(q: RawQuote): (r: Option<QuoteResponse>)
    ensures r.Some? <==> q.quote.Some? && q.author.Some? && q.explanation.Some?
    ensures r.Some? ==> r.value == QuoteResponse(q.quote.value, q.author.value, q.explanation.value)
  {
    if q.quote.Some? && q.author.Some? && q.explanation.Some? then
      Some(QuoteResponse(q.quote.value, q.author.value, q.explanation.value))
    else None
  }
}
