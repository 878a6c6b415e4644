/** The SecretFriend letter pipeline (agents/secretfriend/secretfriend_nodes.py):
    a guard on the diary body, four branch nodes that each write their own
    fields, and a node that renders the letter from the five branch fields.
    The branches run one after another here; their writes are disjoint, so
    the order of the join does not matter. */
module FriendNodes {
  import opened Wrappers
  import opened Text
  import opened Models
  import opened States

  /** What a node raises: StartNodeCheck's ValueError, a KeyError on a state
      key that is absent, or the output parser rejecting an agent's answer. */
  datatype FriendError =
    | ValueError(message: string)
    | MissingKey(key: string)
    | OutputParserError

  /** The three prompts the language model is invoked with. */
  datatype Prompt = PraisePrompt | FeelingPrompt | ThinkingPrompt

  const EmptyBodyMessage: string := "일기 본문이 비어 있습니다. 일기를 작성해주세요."

  /** StartNodeCheck: a missing, empty or whitespace-only body raises;
      any other state passes through unchanged. */
  function StartCheck(s: FriendState): (r: Result<FriendState, FriendError>)
    ensures r.Err? <==> s.diaryBody.None? || IsBlank(s.diaryBody.value)
    ensures r.Err? ==> r.error == ValueError(EmptyBodyMessage)
    ensures r.Ok? ==> r.value == s
  {
    if Strip(s.diaryBody.GetOr("")) == [] then Err(ValueError(EmptyBodyMessage)) else Ok(s)
  }

  /** Returning the input state unchanged is a no-op for the overwrite merge. */
  lemma StartCheckIsNoOp(s: FriendState)
    requires StartCheck(s).Ok?
    ensures MergeFriend(s, StartCheck(s).value) == s
    ensures s.diaryBody.Some? && Strip(s.diaryBody.value) != []
  {
    MergeFriendSelf(s);
  }

  /** MusicRecommendationNode: the agent's answer for the body, parsed into a
      MusicResponse, is the only field written. `agent` returns None when
      its output is not a JSON object. */
  function MusicNode(s: FriendState, agent: string -> Option<RawMusic>): (r: Result<FriendState, FriendError>)
    ensures s.diaryBody.None? ==> r == Err(MissingKey("diary_body"))
    ensures r.Ok? <==> s.diaryBody.Some? && agent(s.diaryBody.value).Some?
                       && ValidateMusic(agent(s.diaryBody.value).value).Some?
    ensures r.Ok? ==> FriendKeys(r.value) == {MusicKey}
                      && r.value.music == ValidateMusic(agent(s.diaryBody.value).value)
  {
    if s.diaryBody.None? then Err(MissingKey("diary_body"))
    else
      var raw := agent(s.diaryBody.value);
      if raw.None? then Err(OutputParserError)
      else
        var music := ValidateMusic(raw.value);
        if music.None? then Err(OutputParserError)
        else Ok(EmptyFriend.(music := music))
  }

  /** QuoteRecommendationNode: the same shape as the music branch, writing
      only `quote`. */
  function QuoteNode(s: FriendState, agent: string -> Option<RawQuote>): (r: Result<FriendState, FriendError>)
    ensures s.diaryBody.None? ==> r == Err(MissingKey("diary_body"))
    ensures r.Ok? <==> s.diaryBody.Some? && agent(s.diaryBody.value).Some?
                       && ValidateQuote(agent(s.diaryBody.value).value).Some?
    ensures r.Ok? ==> FriendKeys(r.value) == {QuoteKey}
                      && r.value.quote == ValidateQuote(agent(s.diaryBody.value).value)
  {
    if s.diaryBody.None? then Err(MissingKey("diary_body"))
    else
      var raw := agent(s.diaryBody.value);
      if raw.None? then Err(OutputParserError)
      else
        var quote := ValidateQuote(raw.value);
        if quote.None? then Err(OutputParserError)
        else Ok(EmptyFriend.(quote := quote))
  }

  /** PraiseNode: the model's reply, whitespace-trimmed, is the only field
      written. */
  function PraiseNode(s: FriendState, llm: (Prompt, string) -> string): (r: Result<FriendState, FriendError>)
    ensures r.Err? <==> s.diaryBody.None?
    ensures r.Err? ==> r.error == MissingKey("diary_body")
    ensures r.Ok? ==> && FriendKeys(r.value) == {PraiseKey}
                      && r.value.praise == Some(Strip(llm(PraisePrompt, s.diaryBody.value)))
                      && IsTrimmed(r.value.praise.value)
                      && |r.value.praise.value| <= |llm(PraisePrompt, s.diaryBody.value)|
                      && (r.value.praise.value == [] <==> IsBlank(llm(PraisePrompt, s.diaryBody.value)))
  {
    if s.diaryBody.None? then Err(MissingKey("diary_body"))
    else Ok(EmptyFriend.(praise := Some(Strip(llm(PraisePrompt, s.diaryBody.value)))))
  }

  /** MBTIFeedbackNode: two replies, one for the comforting (F) prompt and one
      for the advising (T) prompt, each trimmed; nothing else is written. */
  function MBTIFeedbackNode(s: FriendState, llm: (Prompt, string) -> string): (r: Result<FriendState, FriendError>)
    ensures r.Err? <==> s.diaryBody.None?
    ensures r.Err? ==> r.error == MissingKey("diary_body")
    ensures r.Ok? ==> && FriendKeys(r.value) == {FFeedbackKey, TFeedbackKey}
                      && r.value.fFeedback == Some(Strip(llm(FeelingPrompt, s.diaryBody.value)))
                      && r.value.tFeedback == Some(Strip(llm(ThinkingPrompt, s.diaryBody.value)))
  {
    if s.diaryBody.None? then Err(MissingKey("diary_body"))
    else
      var body := s.diaryBody.value;
      Ok(EmptyFriend.(fFeedback := Some(Strip(llm(FeelingPrompt, body))),
                      tFeedback := Some(Strip(llm(ThinkingPrompt, body)))))
  }

  /** The key sets the four branches write. */
  function MusicKeys(): set<FriendKey> { {MusicKey} }
  function QuoteKeys(): set<FriendKey> { {QuoteKey} }
  function PraiseKeys(): set<FriendKey> { {PraiseKey} }
  function FeedbackKeys(): set<FriendKey> { {FFeedbackKey, TFeedbackKey} }

  /** The branches write pairwise-disjoint fields and none writes the body
      or the letter. */
  lemma BranchesWriteDisjointFields(s: FriendState, musicAgent: string -> Option<RawMusic>,
                                    quoteAgent: string -> Option<RawQuote>, llm: (Prompt, string) -> string)
    ensures MusicNode(s, musicAgent).Ok? ==> FriendKeys(MusicNode(s, musicAgent).value) == MusicKeys()
    ensures QuoteNode(s, quoteAgent).Ok? ==> FriendKeys(QuoteNode(s, quoteAgent).value) == QuoteKeys()
    ensures PraiseNode(s, llm).Ok? ==> FriendKeys(PraiseNode(s, llm).value) == PraiseKeys()
    ensures MBTIFeedbackNode(s, llm).Ok? ==> FriendKeys(MBTIFeedbackNode(s, llm).value) == FeedbackKeys()
    ensures MusicKeys() !! QuoteKeys() && MusicKeys() !! PraiseKeys() && MusicKeys() !! FeedbackKeys()
    ensures QuoteKeys() !! PraiseKeys() && QuoteKeys() !! FeedbackKeys() && PraiseKeys() !! FeedbackKeys()
    ensures BodyKey !in MusicKeys() + QuoteKeys() + PraiseKeys() + FeedbackKeys()
    ensures LetterKey !in MusicKeys() + QuoteKeys() + PraiseKeys() + FeedbackKeys()
  {
  }

  // The letter template, part by part.
  const LetterLead: string := "# 💌 비밀친구의 편지\n\n너를 위해 작지만 따뜻한 편지를 준비했어.\n\n---\n\n"
  const SectionBreak: string := "\n\n---\n\n"
  const PraiseHeading: string := "## 🌟 오늘의 칭찬"
  const MusicHeading: string := "## 🎵 오늘의 음악 추천"
  const QuoteHeading: string := "## 📝 오늘의 명언"
  const FeelingHeading: string := "## 🌷 F의 위로"
  const ThinkingHeading: string := "## 🧭 T의 조언"
  const Closing: string := "비밀친구가 여기 있다는 걸 잊지 마.  \n내일도 네 편이 되어줄게.\n\n다 잘 될 거야! ☁️\n잘 자.\n\n— 너의 비밀친구가 -\n"

  function PraiseSection(praise: string): string {
    PraiseHeading + ("\n\n> " + praise)
  }

  function MusicSection(m: MusicResponse): string {
    MusicHeading + ("\n\n**" + m.title + "** - *" + m.artist + "*  \n🔗 [음악 들으러 가기](" + m.url
      + ")  \n_👉 " + m.reason + "_")
  }

  function QuoteSection(q: QuoteResponse): string {
    QuoteHeading + ("\n\n> “" + q.quote + "”  \n> — *" + q.author + "*  \n" + q.explanation)
  }

  function FeelingSection(f: string): string {
    FeelingHeading + ("\n\n" + f)
  }

  function ThinkingSection(t: string): string {
    ThinkingHeading + ("\n\n" + t)
  }

  /** The letter's parts in their fixed order: lead, praise, music, quote,
      F feedback, T feedback, closing, with a rule between sections. */
  function LetterParts(praise: string, m: MusicResponse, q: QuoteResponse, f: string, t: string): (r: seq<string>)
    ensures |r| == 12
  {
    [LetterLead, PraiseSection(praise), SectionBreak, MusicSection(m), SectionBreak, QuoteSection(q),
     SectionBreak, FeelingSection(f), SectionBreak, ThinkingSection(t), SectionBreak, Closing]
  }

  function LetterText(praise: string, m: MusicResponse, q: QuoteResponse, f: string, t: string): (r: string)
    ensures |Closing| <= |r| && r[|r| - |Closing|..] == Closing
  {
    Concat(LetterParts(praise, m, q, f, t))
  }

  /** A string begins with its first piece. */
  lemma StartsWith(h: string, rest: string)
    ensures |h| <= |h + rest| && (h + rest)[..|h|] == h
  {
  }

  /** Every section part begins with its heading. */
  lemma SectionsStartWithHeadings(praise: string, m: MusicResponse, q: QuoteResponse, f: string, t: string)
    ensures var parts := LetterParts(praise, m, q, f, t);
            && |PraiseHeading| <= |parts[1]| && parts[1][..|PraiseHeading|] == PraiseHeading
            && |MusicHeading| <= |parts[3]| && parts[3][..|MusicHeading|] == MusicHeading
            && |QuoteHeading| <= |parts[5]| && parts[5][..|QuoteHeading|] == QuoteHeading
            && |FeelingHeading| <= |parts[7]| && parts[7][..|FeelingHeading|] == FeelingHeading
            && |ThinkingHeading| <= |parts[9]| && parts[9][..|ThinkingHeading|] == ThinkingHeading
  {
    StartsWith(PraiseHeading, "\n\n> " + praise);
    StartsWith(MusicHeading, "\n\n**" + m.title + "** - *" + m.artist + "*  \n🔗 [음악 들으러 가기](" + m.url
      + ")  \n_👉 " + m.reason + "_");
    StartsWith(QuoteHeading, "\n\n> “" + q.quote + "”  \n> — *" + q.author + "*  \n" + q.explanation);
    StartsWith(FeelingHeading, "\n\n" + f);
    StartsWith(ThinkingHeading, "\n\n" + t);
  }

  /** Twelve parts whose odd parts from 1 to 9 start with the five section
      headings and whose last part is the closing: each heading sits at its
      part's offset, in increasing order. */
  lemma {:induction false} HeadingsInOrder(parts: seq<string>)
    requires |parts| == 12 && parts[0] == LetterLead && parts[11] == Closing
    requires |PraiseHeading| <= |parts[1]| && parts[1][..|PraiseHeading|] == PraiseHeading
    requires |MusicHeading| <= |parts[3]| && parts[3][..|MusicHeading|] == MusicHeading
    requires |QuoteHeading| <= |parts[5]| && parts[5][..|QuoteHeading|] == QuoteHeading
    requires |FeelingHeading| <= |parts[7]| && parts[7][..|FeelingHeading|] == FeelingHeading
    requires |ThinkingHeading| <= |parts[9]| && parts[9][..|ThinkingHeading|] == ThinkingHeading
    ensures var letter := Concat(parts);
            && Occurs(PraiseHeading, letter, Offset(parts, 1))
            && Occurs(MusicHeading, letter, Offset(parts, 3))
            && Occurs(QuoteHeading, letter, Offset(parts, 5))
            && Occurs(FeelingHeading, letter, Offset(parts, 7))
            && Occurs(ThinkingHeading, letter, Offset(parts, 9))
            && Occurs(Closing, letter, Offset(parts, 11))
            && Offset(parts, 1) < Offset(parts, 3) < Offset(parts, 5) < Offset(parts, 7)
               < Offset(parts, 9) < Offset(parts, 11)
            && Occurs(LetterLead, letter, 0)
  {
    assert parts[..0] == [];
    assert parts[0][..|LetterLead|] == LetterLead;
    PartOccurs(parts, 0, LetterLead);
    PartOccurs(parts, 1, PraiseHeading);
    PartOccurs(parts, 3, MusicHeading);
    PartOccurs(parts, 5, QuoteHeading);
    PartOccurs(parts, 7, FeelingHeading);
    PartOccurs(parts, 9, ThinkingHeading);
    assert parts[11][..|Closing|] == Closing;
    PartOccurs(parts, 11, Closing);
    OffsetMonotone(parts, 2, 3);
    OffsetMonotone(parts, 4, 5);
    OffsetMonotone(parts, 6, 7);
    OffsetMonotone(parts, 8, 9);
    OffsetMonotone(parts, 10, 11);
  }

  /** The letter's headings appear in the fixed order praise, music, quote,
      F feedback, T feedback, closing, whatever the five texts are. */
  lemma LetterSectionsInOrder(praise: string, m: MusicResponse, q: QuoteResponse, f: string, t: string)
    ensures var parts, letter := LetterParts(praise, m, q, f, t), LetterText(praise, m, q, f, t);
            && Occurs(PraiseHeading, letter, Offset(parts, 1))
            && Occurs(MusicHeading, letter, Offset(parts, 3))
            && Occurs(QuoteHeading, letter, Offset(parts, 5))
            && Occurs(FeelingHeading, letter, Offset(parts, 7))
            && Occurs(ThinkingHeading, letter, Offset(parts, 9))
            && Occurs(Closing, letter, Offset(parts, 11))
            && Offset(parts, 1) < Offset(parts, 3) < Offset(parts, 5) < Offset(parts, 7)
               < Offset(parts, 9) < Offset(parts, 11)
            && Occurs(LetterLead, letter, 0)
  {
    SectionsStartWithHeadings(praise, m, q, f, t);
    HeadingsInOrder(LetterParts(praise, m, q, f, t));
  }

  /** The first of the five fields LetterMarkdownNode reads that is absent. */
  function FirstMissingField(s: FriendState): (r: Option<string>)
    ensures r.None? <==> s.music.Some? && s.quote.Some? && s.praise.Some? && s.fFeedback.Some? && s.tFeedback.Some?
  {
    if s.music.None? then Some("music")
    else if s.quote.None? then Some("quote")
    else if s.praise.None? then Some("praise")
    else if s.fFeedback.None? then Some("F_feedback")
    else if s.tFeedback.None? then Some("T_feedback")
    else None
  }

  /** LetterMarkdownNode: raises on the first absent field; otherwise writes
      only `letter_markdown`, a function of the five fields alone. */
  function LetterNode(s: FriendState): (r: Result<FriendState, FriendError>)
    ensures FirstMissingField(s).Some? ==> r == Err(MissingKey(FirstMissingField(s).value))
    ensures FirstMissingField(s).None? ==>
              && r.Ok? && FriendKeys(r.value) == {LetterKey}
              && r.value.letterMarkdown.value
                 == LetterText(s.praise.value, s.music.value, s.quote.value, s.fFeedback.value, s.tFeedback.value)
  {
    var missing := FirstMissingField(s);
    if missing.Some? then Err(MissingKey(missing.value))
    else Ok(EmptyFriend.(letterMarkdown :=
      Some(LetterText(s.praise.value, s.music.value, s.quote.value, s.fFeedback.value, s.tFeedback.value))))
  }

  /** The letter depends on the five branch fields and on nothing else. */
  lemma {:induction false} LetterDependsOnBranchFieldsOnly(s: FriendState, s': FriendState)
    requires s.music == s'.music && s.quote == s'.quote && s.praise == s'.praise
    requires s.fFeedback == s'.fFeedback && s.tFeedback == s'.tFeedback
    ensures LetterNode(s) == LetterNode(s')
  {
  }

  /** The graph run one node at a time: the guard, the four branches merged
      into the state in the order music, quote, praise, MBTI, then the
      letter. When several branches fail, the first in that order is the
      error reported. */
  function RunPipeline(s: FriendState, musicAgent: string -> Option<RawMusic>,
                       quoteAgent: string -> Option<RawQuote>, llm: (Prompt, string) -> string): (r: Result<FriendState, FriendError>)
    ensures s.diaryBody.None? || IsBlank(s.diaryBody.value) ==> r == Err(ValueError(EmptyBodyMessage))
    ensures r.Ok? <==> && StartCheck(s).Ok? && MusicNode(s, musicAgent).Ok? && QuoteNode(s, quoteAgent).Ok?
                       && PraiseNode(s, llm).Ok? && MBTIFeedbackNode(s, llm).Ok?
    ensures r.Ok? ==> && r.value.diaryBody == s.diaryBody
                      && r.value.praise.Some? && r.value.music.Some? && r.value.quote.Some?
                      && r.value.fFeedback.Some? && r.value.tFeedback.Some?
                      && r.value.letterMarkdown
                         == Some(LetterText(r.value.praise.value, r.value.music.value, r.value.quote.value,
                                            r.value.fFeedback.value, r.value.tFeedback.value))
                      && r.value.music == MusicNode(s, musicAgent).value.music
                      && r.value.quote == QuoteNode(s, quoteAgent).value.quote
                      && r.value.praise == PraiseNode(s, llm).value.praise
                      && r.value.fFeedback == MBTIFeedbackNode(s, llm).value.fFeedback
                      && r.value.tFeedback == MBTIFeedbackNode(s, llm).value.tFeedback
  {
    var start := StartCheck(s);
    if start.Err? then Err(start.error)
    else
      // The guard has seen the body, so the two model-only branches cannot
      // fail; the agent branches can.
      var music := MusicNode(s, musicAgent);
      var quote := QuoteNode(s, quoteAgent);
      var praise := PraiseNode(s, llm).value;
      var feedback := MBTIFeedbackNode(s, llm).value;
      if music.Err? then Err(music.error)
      else if quote.Err? then Err(quote.error)
      else
        var joined := MergeFriend(MergeFriend(MergeFriend(MergeFriend(s, music.value), quote.value), praise), feedback);
        var letter := LetterNode(joined).value;
        assert letter.praise.None? && letter.music.None? && letter.quote.None?
               && letter.fFeedback.None? && letter.tFeedback.None? by {
          assert FriendKeys(letter) == {LetterKey};
        }
        Ok(MergeFriend(joined, letter))
  }

  /** The join does not depend on the order the branches finish in: merging
      the four updates in reverse order gives the same state. */
  lemma JoinOrderIrrelevant(s: FriendState, mu: FriendState, qu: FriendState, pr: FriendState, fb: FriendState)
    requires FriendKeys(mu) !! FriendKeys(qu) && FriendKeys(mu) !! FriendKeys(pr) && FriendKeys(mu) !! FriendKeys(fb)
    requires FriendKeys(qu) !! FriendKeys(pr) && FriendKeys(qu) !! FriendKeys(fb) && FriendKeys(pr) !! FriendKeys(fb)
    ensures MergeFriend(MergeFriend(MergeFriend(MergeFriend(s, mu), qu), pr), fb)
         == MergeFriend(MergeFriend(MergeFriend(MergeFriend(s, fb), pr), qu), mu)
  {
    // Move fb to the front, then pr, then qu.
    MergeFriendCommutes(MergeFriend(MergeFriend(s, mu), qu), pr, fb);
    MergeFriendCommutes(MergeFriend(s, mu), qu, fb);
    MergeFriendCommutes(s, mu, fb);
    MergeFriendCommutes(MergeFriend(MergeFriend(s, fb), mu), qu, pr);
    MergeFriendCommutes(MergeFriend(s, fb), mu, pr);
    MergeFriendCommutes(MergeFriend(MergeFriend(s, fb), pr), mu, qu);
  }
}
