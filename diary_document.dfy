/** GenerateDiaryNode (agents/diary/diary_nodes.py): the diary document is a
    fixed template around an event table with one row per entry in time
    order. The table is grown line by line in a loop, as the source does. */
module DiaryDocument {
  import opened Wrappers
  import opened Text
  import opened Models
  import opened States
  import opened TimeSort
  import opened DiaryNodes

  /** The day period: 오전 (morning) before noon, 오후 (afternoon) from noon. */
  function Period(h: Hour): string {
    if h < 12 then "오전" else "오후"
  }

  /** The hour on a 12-hour dial. */
  function DisplayHour(h: Hour): nat {
    if 1 <= h <= 12 then h else if h > 12 then h - 12 else 12
  }

  /** Reads the 24-hour clock hour back from a period and a dial hour. */
  function HourOf(period: string, dial: nat): int {
    if period == "오전" then (if dial == 12 then 0 else dial)
    else (if dial == 12 then 12 else dial + 12)
  }

  /** The 12-hour rendering: morning exactly before noon, the dial hour in
      1..12 (12 for midnight and noon, hour - 12 in the afternoon), and no
      information lost: period and dial hour give the hour back. */
  lemma TwelveHourClock(h: Hour)
    ensures Period(h) == "오전" <==> h < 12
    ensures 1 <= DisplayHour(h) <= 12
    ensures h == 0 || h == 12 ==> DisplayHour(h) == 12
    ensures h > 12 ==> DisplayHour(h) == h - 12
    ensures 1 <= h < 12 ==> DisplayHour(h) == h
    ensures HourOf(Period(h), DisplayHour(h)) == h
  {
  }

  /** The f-string `_format_time_kr` fills in before stripping it:
      "{period} {hour}시 {minute}분", the minute part empty at minute zero. */
  function KrTimeFString(t: Clock): string {
    var minutePart := if t.minute != 0 then NatToString(t.minute) + "분" else "";
    Period(t.hour) + " " + NatToString(DisplayHour(t.hour)) + "시 " + minutePart
  }

  /** `_format_time_kr`, in its stripped form: the minute suffix is present
      exactly when the minute is not zero. */
  function FormatTimeKr(t: Clock): (r: string)
    ensures |r| >= 2 && r[..2] == Period(t.hour)
    ensures r[|r| - 1] == (if t.minute == 0 then '시' else '분')
    ensures IsTrimmed(r)
  {
    Period(t.hour) + " " + NatToString(DisplayHour(t.hour)) + "시"
    + (if t.minute == 0 then "" else " " + NatToString(t.minute) + "분")
  }

  /** `_format_time_kr` strips its f-string: the strip only removes the
      space left before an empty minute part, and the result never has
      whitespace at either end. */
  lemma FormatTimeKrIsStripped(t: Clock)
    ensures FormatTimeKr(t) == Strip(KrTimeFString(t))
    ensures IsTrimmed(FormatTimeKr(t))
  {
    var head := Period(t.hour) + " " + NatToString(DisplayHour(t.hour)) + "시";
    assert head[0] == Period(t.hour)[0];
    assert IsTrimmed(head);
    if t.minute == 0 {
      assert KrTimeFString(t) == head + " ";
      assert FormatTimeKr(t) == head;
      StripBlankTail(head, " ");
    } else {
      var full := head + " " + NatToString(t.minute) + "분";
      assert KrTimeFString(t) == full;
      assert FormatTimeKr(t) == full;
      assert full[0] == head[0];
      StripTrimmed(full);
    }
  }

  const HeaderRow: string := "| 시간대 | 사건명 | 감정 | 감정 키워드 | 함께한 사람 |"
  const RuleRow: string := "|--------|--------|------|--------------|---------------|"
  const AloneCell: string := "혼자"

  /** "name(relationship)", or the name alone when the relationship is empty. */
  function CompanionLabel(c: Companion): (r: string)
    ensures |c.name| <= |r| && r[..|c.name|] == c.name
    ensures c.relationship == "" ==> r == c.name
    ensures c.relationship != "" ==>
              && |r| == |c.name| + |c.relationship| + 2 && r[|c.name|] == '('
              && r[|c.name| + 1..|r| - 1] == c.relationship && r[|r| - 1] == ')'
    ensures r == "" <==> c.name == "" && c.relationship == ""
  {
    if c.relationship != "" then
      Framed(c.name + "(", c.relationship, ")");
      c.name + "(" + c.relationship + ")"
    else c.name
  }

  function CompanionLabels(cs: seq<Companion>): (r: seq<string>)
    ensures |r| == |cs| && forall i :: 0 <= i < |cs| ==> r[i] == CompanionLabel(cs[i])
  {
    seq(|cs|, i requires 0 <= i < |cs| => CompanionLabel(cs[i]))
  }

  /** `", ".join(labels) or "혼자"`. */
  function CompanionsCell(cs: seq<Companion>): (r: string)
    ensures r != ""
    ensures cs == [] ==> r == AloneCell
    ensures Join(", ", CompanionLabels(cs)) != "" ==> r == Join(", ", CompanionLabels(cs))
  {
    var joined := Join(", ", CompanionLabels(cs));
    if joined == "" then AloneCell else joined
  }

  /** The cell reads 혼자 ("alone") for an empty list, and otherwise only
      when a single companion's label is empty (no name, no relationship)
      or is itself 혼자. */
  lemma CompanionsCellAlone(cs: seq<Companion>)
    ensures cs == [] ==> CompanionsCell(cs) == AloneCell
    ensures CompanionsCell(cs) == AloneCell <==>
              cs == [] || (|cs| == 1 && (CompanionLabel(cs[0]) == "" || CompanionLabel(cs[0]) == AloneCell))
    ensures forall c :: CompanionLabel(c) == "" <==> c.name == "" && c.relationship == ""
  {
    var labels := CompanionLabels(cs);
    JoinIsEmpty(", ", labels);
    if |cs| == 1 {
      assert labels == [CompanionLabel(cs[0])];
    } else if |cs| >= 2 {
      var j := Join(", ", labels);
      assert j == labels[0] + ", " + Join(", ", labels[1..]);
      assert j[|labels[0]|] == ',';
      assert j != AloneCell by {
        if |j| == 2 { assert j[0] == ','; }
      }
    }
  }

  /** One table line: time, title, emotion, keywords joined with ", ",
      companions. */
  function TableRow(e: DiaryEntry): (r: string)
    ensures var time := FormatTimeKr(e.timePeriod);
            && |r| >= |time| + 4 && r[..|time| + 2] == "| " + time && r[|r| - 2..] == " |"
  {
    var lead := "| " + FormatTimeKr(e.timePeriod);
    var cells := " | " + e.eventTitle + " | " + EmotionName(e.coreEmotion)
                 + " | " + Join(", ", e.emotionKeywords) + " | " + CompanionsCell(e.companions);
    Framed(lead, cells, " |");
    lead + cells + " |"
  }

  /** The row is the five cells joined with " | " between a leading "| "
      and a trailing " |": the time, the title, the emotion's name, the
      keywords joined with ", " and the companions cell. */
  lemma TableRowCells(e: DiaryEntry)
    ensures TableRow(e) == "| " + Join(" | ", [FormatTimeKr(e.timePeriod), e.eventTitle, EmotionName(e.coreEmotion),
                                                Join(", ", e.emotionKeywords), CompanionsCell(e.companions)]) + " |"
  {
    RowJoin(FormatTimeKr(e.timePeriod), e.eventTitle, EmotionName(e.coreEmotion),
            Join(", ", e.emotionKeywords), CompanionsCell(e.companions));
  }

  /** The row's f-string shape, for any five cells, is their " | " join
      framed by "| " and " |". */
  lemma RowJoin(time: string, title: string, emo: string, kw: string, comp: string)
    ensures ("| " + time) + (" | " + title + " | " + emo + " | " + kw + " | " + comp) + " |"
            == "| " + Join(" | ", [time, title, emo, kw, comp]) + " |"
  {
    JoinFive(" | ", time, title, emo, kw, comp);
  }

  function TableRows(sorted: seq<DiaryEntry>): (r: seq<string>)
    ensures |r| == |sorted| && forall i :: 0 <= i < |sorted| ==> r[i] == TableRow(sorted[i])
  {
    seq(|sorted|, i requires 0 <= i < |sorted| => TableRow(sorted[i]))
  }

  lemma TableRowsSnoc(es: seq<DiaryEntry>, e: DiaryEntry)
    ensures TableRows(es + [e]) == TableRows(es) + [TableRow(e)]
  {
    var a, b := TableRows(es + [e]), TableRows(es) + [TableRow(e)];
    assert |a| == |b|;
    forall i | 0 <= i < |a|
      ensures a[i] == b[i]
    {
      if i < |es| {
        assert (es + [e])[i] == es[i];
      }
    }
  }

  /** One more pass of the table loop appends the next entry's row. */
  lemma TableLinesStep(sorted: seq<DiaryEntry>, k: nat)
    requires k < |sorted|
    ensures [HeaderRow, RuleRow] + TableRows(sorted[..k + 1])
            == [HeaderRow, RuleRow] + TableRows(sorted[..k]) + [TableRow(sorted[k])]
  {
    assert sorted[..k + 1] == sorted[..k] + [sorted[k]];
    TableRowsSnoc(sorted[..k], sorted[k]);
  }

  /** The loop that builds `table_lines`: the two header lines, then one
      line appended per entry, in the order given. */
  method BuildTableLines(sorted: seq<DiaryEntry>) returns (lines: seq<string>)
    ensures lines == [HeaderRow, RuleRow] + TableRows(sorted)
  {
    lines := [HeaderRow, RuleRow];
    for k := 0 to |sorted|
      invariant lines == [HeaderRow, RuleRow] + TableRows(sorted[..k])
    {
      TableLinesStep(sorted, k);
      lines := lines + [TableRow(sorted[k])];
    }
    assert sorted[..|sorted|] == sorted;
  }

  /** The table rows follow the entries in time order: one row per entry,
      a permutation of the input, earlier times first, and entries recorded
      at the same time in the order they were recorded. */
  lemma TableFollowsTime(entries: seq<DiaryEntry>)
    ensures var sorted := SortByTime(entries);
            && |TableRows(sorted)| == |entries|
            && multiset(sorted) == multiset(entries)
            && (forall i, j :: 0 <= i < j < |sorted| ==> TimeKey(sorted[i].timePeriod) <= TimeKey(sorted[j].timePeriod))
            && SameOrderPerTime(entries, sorted)
            && (forall i :: 0 <= i < |sorted| ==> TableRows(sorted)[i] == TableRow(sorted[i]))
  {
    SortByTimeCorrect(entries);
  }

  /** Worked example: "Exam" at 09:00 and "Lunch" at 12:30, recorded in
      either order, are listed Exam first. */
  lemma ExamBeforeLunch(exam: DiaryEntry, lunch: DiaryEntry)
    requires exam.timePeriod == Clock(9, 0, 0, 0) && lunch.timePeriod == Clock(12, 30, 0, 0)
    ensures SortByTime([lunch, exam]) == [exam, lunch]
    ensures SortByTime([exam, lunch]) == [exam, lunch]
  {
    assert [lunch, exam][..1] == [lunch] && [lunch][..0] == [];
    assert [exam, lunch][..1] == [exam] && [exam][..0] == [];
    assert Insert([lunch], exam) == Insert([], exam) + [lunch];
  }

  /** `strftime("%Y년 %m월 %d일")`, with the year written as four digits. */
  function DateKr(d: Date): (r: string)
    ensures |r| == 13 && r[4..6] == "년 " && r[8..10] == "월 " && r[12..] == "일"
  {
    Pad2(d.year / 100) + Pad2(d.year % 100) + "년 " + Pad2(d.month) + "월 " + Pad2(d.day) + "일"
  }

  /** The date heading reads back: four year digits, then month and day as
      two digits each, at fixed places. */
  lemma DateKrReadsBack(d: Date)
    ensures var r := DateKr(d);
            && |r| == 13 && IsDigits(r[..4]) && IsDigits(r[6..8]) && IsDigits(r[10..12])
            && ParseDigits(r[..4]) == d.year
            && ParseDigits(r[6..8]) == d.month
            && ParseDigits(r[10..12]) == d.day
  {
    var r := DateKr(d);
    var hi, lo := Pad2(d.year / 100), Pad2(d.year % 100);
    assert r[..4] == hi + lo;
    assert r[6..8] == Pad2(d.month);
    assert r[10..12] == Pad2(d.day);
    Pad2RoundTrip(d.year / 100);
    Pad2RoundTrip(d.year % 100);
    Pad2RoundTrip(d.month);
    Pad2RoundTrip(d.day);
    ParseTwoMore(hi, lo);
  }

  /** Two more digits on the right multiply the value read so far by 100. */
  lemma ParseTwoMore(a: string, b: string)
    requires IsDigits(a) && IsDigits(b) && |b| == 2
    ensures IsDigits(a + b) && ParseDigits(a + b) == 100 * ParseDigits(a) + ParseDigits(b)
  {
    var ab := a + b;
    assert ab[..|ab| - 1] == a + [b[0]];
    assert (a + [b[0]])[..|a|] == a;
    assert b[..|b| - 1] == [b[0]] && [b[0]][..0] == [];
    assert ParseDigits([b[0]]) == DigitValue(b[0]);
    assert ParseDigits(b) == 10 * DigitValue(b[0]) + DigitValue(b[1]);
  }

  // The document template, piece by piece.
  const TitleLead: string := "# 📘 "
  const TitleEnd: string := " 일기\n"
  const WrittenAtHeading: string := "> ⏰ 작성 시각: "
  const OneLinerHeading: string := "\n\n## ☀️ 오늘의 한 줄\n> "
  const TableHeading: string := "\n\n---\n\n## 📋 오늘의 사건 요약\n\n"
  const BodyHeading: string := "\n\n---\n\n## 📖 오늘의 일기\n\n"
  const PieHeading: string := "\n\n---\n\n## 📊 감정 요약 그래프\n\n### 🥧 감정 비율\n![감정 비율]("
  const TimelineHeading: string := ")\n\n### 📈 시간 흐름에 따른 감정 변화\n![감정 흐름]("
  const ScoreHeading: string := ")\n\n### 🎯 감정 점수 추이\n"
  const ScoreLink: string := "![감정 점수]("
  const DocumentEnd: string := ")\n"

  /** The template's fixed texts with the eight values between them, in
      document order. */
  function DiaryParts(today: string, writtenAt: string, oneLiner: string, table: string,
                      body: string, pieUrl: string, timelineUrl: string, scoreUrl: string): (r: seq<string>)
    ensures |r| == 19
  {
    [TitleLead, today, TitleEnd, WrittenAtHeading, writtenAt, OneLinerHeading, oneLiner,
     TableHeading, table, BodyHeading, body, PieHeading, pieUrl, TimelineHeading, timelineUrl,
     ScoreHeading, ScoreLink, scoreUrl, DocumentEnd]
  }

  /** The document template, filled in. */
  function DiaryMarkdown(today: string, writtenAt: string, oneLiner: string, table: string,
                         body: string, pieUrl: string, timelineUrl: string, scoreUrl: string): (r: string)
    ensures var head := "# 📘 " + today + " 일기\n";
            |head| <= |r| && r[..|head|] == head
    ensures var tail := "![감정 점수](" + scoreUrl + ")\n";
            |tail| <= |r| && r[|r| - |tail|..] == tail
  {
    var parts := DiaryParts(today, writtenAt, oneLiner, table, body, pieUrl, timelineUrl, scoreUrl);
    ConcatEnds(parts);
    Concat(parts)
  }

  /** For nineteen parts laid out like the template: every part from the
      written-at heading to the score url sits at its offset, each value
      part starts right where its heading ends, and the headings' offsets
      increase. */
  lemma SectionsAtOffsets(parts: seq<string>)
    requires |parts| == 19
    requires |parts[3]| > 0 && |parts[5]| > 0 && |parts[7]| > 0 && |parts[9]| > 0
    requires |parts[11]| > 0 && |parts[13]| > 0 && |parts[15]| > 0
    ensures forall j :: 3 <= j < 18 ==> Occurs(parts[j], Concat(parts), Offset(parts, j))
    ensures forall j :: 3 <= j < 18 ==> Offset(parts, j + 1) == Offset(parts, j) + |parts[j]|
    ensures Offset(parts, 3) < Offset(parts, 5) < Offset(parts, 7) < Offset(parts, 9)
            < Offset(parts, 11) < Offset(parts, 13) < Offset(parts, 15)
  {
    forall j | 3 <= j < 18
      ensures Occurs(parts[j], Concat(parts), Offset(parts, j))
      ensures Offset(parts, j + 1) == Offset(parts, j) + |parts[j]|
    {
      PartAt(parts, j);
    }
    OffsetMonotone(parts, 4, 5);
    OffsetMonotone(parts, 6, 7);
    OffsetMonotone(parts, 8, 9);
    OffsetMonotone(parts, 10, 11);
    OffsetMonotone(parts, 12, 13);
    OffsetMonotone(parts, 14, 15);
  }

  /** The sections come in the template's order: written-at, one-liner,
      event table, diary body, pie chart, timeline, score chart. Each heading
      sits at its offset and its value starts right where the heading ends. */
  lemma DiarySectionsInOrder(today: string, writtenAt: string, oneLiner: string, table: string,
                             body: string, pieUrl: string, timelineUrl: string, scoreUrl: string)
    ensures var parts := DiaryParts(today, writtenAt, oneLiner, table, body, pieUrl, timelineUrl, scoreUrl);
            var doc := DiaryMarkdown(today, writtenAt, oneLiner, table, body, pieUrl, timelineUrl, scoreUrl);
            && Occurs(WrittenAtHeading, doc, Offset(parts, 3))
            && Occurs(writtenAt, doc, Offset(parts, 4)) && Offset(parts, 4) == Offset(parts, 3) + |WrittenAtHeading|
            && Occurs(OneLinerHeading, doc, Offset(parts, 5))
            && Occurs(oneLiner, doc, Offset(parts, 6)) && Offset(parts, 6) == Offset(parts, 5) + |OneLinerHeading|
            && Occurs(TableHeading, doc, Offset(parts, 7))
            && Occurs(table, doc, Offset(parts, 8)) && Offset(parts, 8) == Offset(parts, 7) + |TableHeading|
            && Occurs(BodyHeading, doc, Offset(parts, 9))
            && Occurs(body, doc, Offset(parts, 10)) && Offset(parts, 10) == Offset(parts, 9) + |BodyHeading|
            && Occurs(PieHeading, doc, Offset(parts, 11))
            && Occurs(pieUrl, doc, Offset(parts, 12)) && Offset(parts, 12) == Offset(parts, 11) + |PieHeading|
            && Occurs(TimelineHeading, doc, Offset(parts, 13))
            && Occurs(timelineUrl, doc, Offset(parts, 14)) && Offset(parts, 14) == Offset(parts, 13) + |TimelineHeading|
            && Occurs(ScoreHeading, doc, Offset(parts, 15))
            && Occurs(ScoreLink, doc, Offset(parts, 16)) && Offset(parts, 16) == Offset(parts, 15) + |ScoreHeading|
            && Occurs(scoreUrl, doc, Offset(parts, 17)) && Offset(parts, 17) == Offset(parts, 16) + |ScoreLink|
            && Offset(parts, 3) < Offset(parts, 5) < Offset(parts, 7) < Offset(parts, 9)
               < Offset(parts, 11) < Offset(parts, 13) < Offset(parts, 15)
  {
    var parts := DiaryParts(today, writtenAt, oneLiner, table, body, pieUrl, timelineUrl, scoreUrl);
    assert |WrittenAtHeading| > 0 && |OneLinerHeading| > 0 && |TableHeading| > 0 && |BodyHeading| > 0;
    assert |PieHeading| > 0 && |TimelineHeading| > 0 && |ScoreHeading| > 0;
    SectionsAtOffsets(parts);
    var doc := Concat(parts);
    assert Occurs(parts[3], doc, Offset(parts, 3)) && Occurs(parts[4], doc, Offset(parts, 4));
    assert Occurs(parts[5], doc, Offset(parts, 5)) && Occurs(parts[6], doc, Offset(parts, 6));
    assert Occurs(parts[7], doc, Offset(parts, 7)) && Occurs(parts[8], doc, Offset(parts, 8));
    assert Occurs(parts[9], doc, Offset(parts, 9)) && Occurs(parts[10], doc, Offset(parts, 10));
    assert Occurs(parts[11], doc, Offset(parts, 11)) && Occurs(parts[12], doc, Offset(parts, 12));
    assert Occurs(parts[13], doc, Offset(parts, 13)) && Occurs(parts[14], doc, Offset(parts, 14));
    assert Occurs(parts[15], doc, Offset(parts, 15)) && Occurs(parts[16], doc, Offset(parts, 16));
    assert Occurs(parts[17], doc, Offset(parts, 17));
  }

  /** The first key GenerateDiaryNode reads that is absent, in reading order. */
  function FirstMissingKey(s: State): (r: Option<string>)
    ensures r.None? <==> && s.entries.Some? && s.todayDate.Some? && s.writtenAt.Some?
                         && s.oneLiner.Some? && s.diaryBody.Some? && s.emotionPieChartUrl.Some?
                         && s.emotionTimelineChartUrl.Some? && s.emotionScoreChartUrl.Some?
  {
    if s.entries.None? then Some("entries")
    else if s.todayDate.None? then Some("today_date")
    else if s.writtenAt.None? then Some("written_at")
    else if s.oneLiner.None? then Some("one_liner")
    else if s.diaryBody.None? then Some("diary_body")
    else if s.emotionPieChartUrl.None? then Some("emotion_pie_chart_url")
    else if s.emotionTimelineChartUrl.None? then Some("emotion_timeline_chart_url")
    else if s.emotionScoreChartUrl.None? then Some("emotion_score_chart_url")
    else None
  }

  /** The document a complete state renders to. */
  function DiaryDocumentOf(s: State): string
    requires FirstMissingKey(s).None?
  {
    var lines := [HeaderRow, RuleRow] + TableRows(SortByTime(s.entries.value));
    DiaryMarkdown(DateKr(s.todayDate.value), TimeLabel(s.writtenAt.value), s.oneLiner.value,
                  Join("\n", lines), s.diaryBody.value, s.emotionPieChartUrl.value,
                  s.emotionTimelineChartUrl.value, s.emotionScoreChartUrl.value)
  }

  /** GenerateDiaryNode.execute: raises on the first absent key it reads,
      otherwise sets `final_markdown` and nothing else. */
  method GenerateDiaryNode(s: State) returns (r: Result<Update, NodeError>)
    ensures FirstMissingKey(s).Some? ==> r == Err(MissingKey(FirstMissingKey(s).value))
    ensures FirstMissingKey(s).None? ==>
              && r.Ok? && UpdateKeys(r.value) == {FinalMarkdown} && r.value.messages == []
              && r.value.finalMarkdown == Some(DiaryDocumentOf(s))
  {
    var missing := FirstMissingKey(s);
    if missing.Some? {
      return Err(MissingKey(missing.value));
    }
    var sorted := SortByTime(s.entries.value);
    var today := DateKr(s.todayDate.value);
    var writtenAt := TimeLabel(s.writtenAt.value);
    var lines := BuildTableLines(sorted);
    assert lines == [HeaderRow, RuleRow] + TableRows(sorted);
    var table := Join("\n", lines);
    var md := DiaryMarkdown(today, writtenAt, s.oneLiner.value, table, s.diaryBody.value,
                            s.emotionPieChartUrl.value, s.emotionTimelineChartUrl.value,
                            s.emotionScoreChartUrl.value);
    FinalMarkdownOnlyKey(md);
    r := Ok(EmptyUpdate.(finalMarkdown := Some(md)));
  }
}
