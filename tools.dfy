/** The tools the models call (agents/core/tools.py): the keyword lookup of
    the diary side and the guard and reply logic of the Spotify tool. The
    Spotify search itself is a parameter: a function from the request to
    the first track found, if any. */
module Tools {
  import opened Wrappers
  import opened Text
  import opened Models

  /** `suggest_keywords_tool` called directly: the keyword list of a core
      emotion, and the empty list for any other string. */
  function SuggestKeywords(coreEmotion: string): (r: seq<string>)
    ensures ParseEmotion(coreEmotion).Some? ==> r != [] && r == EmotionKeywordMap[coreEmotion]
    ensures ParseEmotion(coreEmotion).None? ==> r == []
  {
    KeywordMapShape();
    if coreEmotion in EmotionKeywordMap then EmotionKeywordMap[coreEmotion] else []
  }

  /** The fields of the first search hit the tool reads. */
  datatype Track = Track(name: string, artist: string, url: string)

  /** A track search; the type, limit and market arguments are fixed. */
  datatype SearchRequest = SearchRequest(query: string, offset: int)

  /** `random.randint(0, 50)`: the offset is drawn by the caller. */
  type Offset = n: int | 0 <= n <= 50

  /** What `_run` returns, and the search it issued, if it issued one. */
  datatype ToolReply = ToolReply(text: string, search: Option<SearchRequest>)

  const DiaryMissingReply: string := "일기 본문을 입력해주세요."
  const KeywordMissingReply: string := "keyword를 다시 생성해 입력해주세요."

  function FoundReply(t: Track): (r: string)
    ensures var a := 5 + |t.name| + 8;
            var u := a + |t.artist| + 9;
            && u + |t.url| <= |r|
            && r[5..5 + |t.name|] == t.name && r[a..a + |t.artist|] == t.artist && r[u..u + |t.url|] == t.url
  {
    "제목은 [" + t.name + "], 가수는 [" + t.artist + "], url은 [" + t.url + "] 입니다."
  }

  function NotFoundReply(keyword: string): (r: string)
    ensures 2 + |keyword| <= |r| && r[0] == '\'' && r[1..1 + |keyword|] == keyword && r[1 + |keyword|] == '\''
  {
    "'" + keyword + "' 키워드에 맞는 추천 곡을 찾지 못했습니다."
  }

  /** `SpotifyTool._run(diary, keyword)`. */
  function SpotifyRun(diary: string, keyword: string, offset: Offset,
                      search: SearchRequest -> Option<Track>): (r: ToolReply)
    ensures IsBlank(diary) ==> r == ToolReply(DiaryMissingReply, None)
    ensures !IsBlank(diary) && IsBlank(keyword) ==> r == ToolReply(KeywordMissingReply, None)
    ensures r.search.Some? <==> !IsBlank(diary) && !IsBlank(keyword)
    ensures r.search.Some? ==> && r.search.value.query == Strip(keyword)
                               && r.search.value.query != "" && IsTrimmed(r.search.value.query)
                               && 0 <= r.search.value.offset <= 50
    ensures r.search.Some? && search(r.search.value).Some? ==> r.text == FoundReply(search(r.search.value).value)
    ensures r.search.Some? && search(r.search.value).None? ==> r.text == NotFoundReply(r.search.value.query)
  {
    var body := Strip(diary);
    if body == "" then ToolReply(DiaryMissingReply, None)
    else
      var kw := Strip(keyword);
      if kw == "" then ToolReply(KeywordMissingReply, None)
      else
        var request := SearchRequest(kw, offset);
        match search(request)
        case Some(track) => ToolReply(FoundReply(track), Some(request))
        case None => ToolReply(NotFoundReply(kw), Some(request))
  }

  /** The four replies are told apart by their first character, so the
      calling agent can always see which case it got. */
  lemma RepliesDistinct(t: Track, keyword: string)
    ensures FoundReply(t) != NotFoundReply(keyword)
    ensures FoundReply(t) != DiaryMissingReply && FoundReply(t) != KeywordMissingReply
    ensures NotFoundReply(keyword) != DiaryMissingReply && NotFoundReply(keyword) != KeywordMissingReply
    ensures DiaryMissingReply != KeywordMissingReply
  {
    assert FoundReply(t)[0] == '제';
    assert NotFoundReply(keyword)[0] == '\'';
    assert DiaryMissingReply[0] == '일';
    assert KeywordMissingReply[0] == 'k';
  }
}
