/** The text-analysis route: the request check, the transcript projection,
    the accumulation of the language service's action results, the shaping
    of those results into session suggestions, and the speech region taken
    from the endpoint. The speech and language services are parameters. */
module TextAnalysis {
  import opened Wrappers
  import opened Strings
  import opened Json
  import opened Http

  const NoAudioUrl := "No se proporcionó una URL de audio"
  const MaxKeyPhrases := 10

  // ---------------------------------------------------------------------
  // process_audio

  /** `process_audio`: the request body must be a dict with a truthy
      `audio_url`; the analysis itself is `analyse`, and anything it raises
      becomes a 500 carrying the exception. */
  function ProcessAudio(data: Json, analyse: Json -> Reply): (r: Reply)
    ensures data.JObj? && !Truthy(Get(data.fields, "audio_url", JNull)) ==> r == Reply(400, ErrorBody(NoAudioUrl))
    ensures !data.JObj? ==> r == Reply(500, ErrorBody("AttributeError"))
    ensures data.JObj? && Truthy(Get(data.fields, "audio_url", JNull)) ==>
      var a := analyse(data.fields["audio_url"]);
      r == if a.Raised? then Reply(500, ErrorBody(a.exception)) else a
  {
    if !data.JObj? then Reply(500, ErrorBody("AttributeError"))
    else
      var url := Get(data.fields, "audio_url", JNull);
      if !Truthy(url) then Reply(400, ErrorBody(NoAudioUrl))
      else
        match analyse(url)
        case Raised(e) => Reply(500, ErrorBody(e))
        case Reply(code, body) => Reply(code, body)
  }

  // ---------------------------------------------------------------------
  // transcribe_audio: the transcript projection

  /** `{"text": phrase["text"]}` for one combined phrase. */
  function PhraseText(phrase: Json, i: nat): Result<Json>
  {
    match Subscript(phrase, "text")
    case Err(e) => Err(e)
    case Ok(t) => Ok(JObj(map["text" := t]))
  }

  /** The transcript `transcribe_audio` returns for the service's answer:
      one entry per combined phrase (none without the field). */
  function SimpleTranscript(result: Document): (r: Result<seq<Json>>)
  {
    match Items(Get(result, "combinedPhrases", JList([])))
    case Err(e) => Err(e)
    case Ok(phrases) => MapAll(phrases, PhraseText)
  }

  /** One transcript entry per phrase, in order, holding exactly the
      phrase's text; an answer without phrases gives an empty transcript. */
  lemma SimpleTranscriptEntries(result: Document)
    requires "combinedPhrases" in result && result["combinedPhrases"].JList?
    requires SimpleTranscript(result).Ok?
    ensures var phrases := result["combinedPhrases"].items;
      var r := SimpleTranscript(result).value;
      |r| == |phrases| &&
      forall i :: 0 <= i < |r| ==>
        (phrases[i].JObj? && "text" in phrases[i].fields &&
         r[i] == JObj(map["text" := phrases[i].fields["text"]]))
  {
    var phrases := result["combinedPhrases"].items;
    var r := SimpleTranscript(result).value;
    forall i | 0 <= i < |r|
      ensures phrases[i].JObj? && "text" in phrases[i].fields &&
        r[i] == JObj(map["text" := phrases[i].fields["text"]])
    {
      assert PhraseText(phrases[i], i) == Ok(r[i]);
    }
  }

  lemma SimpleTranscriptEmpty(result: Document)
    requires "combinedPhrases" !in result
    ensures SimpleTranscript(result) == Ok([])
  {
  }

  /** `entry["text"]` as a string for the join. */
  function EntryText(entry: Json, i: nat): Result<string>
  {
    match Subscript(entry, "text")
    case Err(e) => Err(e)
    case Ok(t) => if t.JStr? then Ok(t.s) else Err("TypeError")
  }

  /** The single document `analyze_text` sends: every entry's text joined
      by spaces. */
  function CombinedText(entries: seq<Json>): Result<string>
  {
    match MapAll(entries, EntryText)
    case Err(e) => Err(e)
    case Ok(texts) => Ok(Join(" ", texts))
  }

  /** The projection keeps exactly what the combined text reads: the
      document built from the transcript is the one built from the phrases
      themselves. */
  lemma TranscriptKeepsText(phrases: seq<Json>)
    requires MapAll(phrases, PhraseText).Ok?
    ensures MapAll(MapAll(phrases, PhraseText).value, EntryText) == MapAll(phrases, EntryText)
  {
    var entries := MapAll(phrases, PhraseText).value;
    forall i | 0 <= i < |phrases| ensures EntryText(entries[i], i) == EntryText(phrases[i], i) {
      assert PhraseText(phrases[i], i) == Ok(entries[i]);
    }
    MapAllPointwise(entries, EntryText, phrases, EntryText);
  }

  // ---------------------------------------------------------------------
  // analyze_text: the action results

  /** One action result of the language service, by kind; an error result
      and a kind the route does not handle are skipped. */
  datatype Action =
    | Failed
    | KeyPhrases(phrases: seq<Json>)
    | DocumentSentiment(sentiment: Json, scores: Json)
    | Extractive(sentences: seq<string>)
    | Abstractive(summaries: seq<Json>)
    | OtherKind

  /** The sentiment the service gives one sentence. */
  datatype SentenceSentiment = SentenceSentiment(sentiment: Json, scores: Json)

  /** The four results `analyze_text` gathers for the document. */
  datatype Gathered = Gathered(keyPhrases: seq<Json>, sentiment: Json,
                               extractive: seq<Json>, abstractive: seq<Json>)

  const Nothing := Gathered([], JObj(map[]), [], [])

  /** The entry for one extractive sentence with its own sentiment. */
  function SentenceEntry(text: string, s: SentenceSentiment): Json
  {
    JObj(map["text" := JStr(text), "sentiment" := s.sentiment, "confidence_scores" := s.scores])
  }

  function SentenceEntries(sentences: seq<string>, sentimentOf: string -> SentenceSentiment): (r: seq<Json>)
    ensures |r| == |sentences|
    ensures forall i :: 0 <= i < |sentences| ==> r[i] == SentenceEntry(sentences[i], sentimentOf(sentences[i]))
  {
    seq(|sentences|, i requires 0 <= i < |sentences| => SentenceEntry(sentences[i], sentimentOf(sentences[i])))
  }

  /** What one action result does to the gathered results: key phrases
      and the document sentiment replace what was there (key phrases cut
      to ten), sentences and summaries are appended. */
  function Gather(g: Gathered, a: Action, sentimentOf: string -> SentenceSentiment): Gathered
  {
    match a
    case Failed => g
    case KeyPhrases(phrases) => g.(keyPhrases := Head(phrases, MaxKeyPhrases))
    case DocumentSentiment(sentiment, scores) =>
      g.(sentiment := JObj(map["sentiment" := sentiment, "confidence_scores" := scores]))
    case Extractive(sentences) => g.(extractive := g.extractive + SentenceEntries(sentences, sentimentOf))
    case Abstractive(summaries) => g.(abstractive := g.abstractive + summaries)
    case OtherKind => g
  }

  function GatherAll(actions: seq<Action>, sentimentOf: string -> SentenceSentiment): Gathered
    decreases |actions|
  {
    if |actions| == 0 then Nothing
    else Gather(GatherAll(actions[..|actions| - 1], sentimentOf), actions[|actions| - 1], sentimentOf)
  }

  /** The summaries of every abstractive result, in order. */
  function AllSummaries(actions: seq<Action>): seq<Json>
    decreases |actions|
  {
    if |actions| == 0 then []
    else
      var last := actions[|actions| - 1];
      AllSummaries(actions[..|actions| - 1]) + (if last.Abstractive? then last.summaries else [])
  }

  /** The number of sentences of every extractive result. */
  function SentenceCount(actions: seq<Action>): nat
    decreases |actions|
  {
    if |actions| == 0 then 0
    else
      var last := actions[|actions| - 1];
      SentenceCount(actions[..|actions| - 1]) + (if last.Extractive? then |last.sentences| else 0)
  }

  /** At most ten key phrases are kept; the summaries are every
      abstractive summary in order; there is one extractive entry per
      extractive sentence. */
  lemma {:induction false} GatherAllFacts(actions: seq<Action>, sentimentOf: string -> SentenceSentiment)
    ensures var g := GatherAll(actions, sentimentOf);
      |g.keyPhrases| <= MaxKeyPhrases &&
      g.abstractive == AllSummaries(actions) &&
      |g.extractive| == SentenceCount(actions)
    decreases |actions|
  {
    if |actions| > 0 {
      GatherAllFacts(actions[..|actions| - 1], sentimentOf);
    }
  }

  /** The key phrases are those of the last key-phrase result, cut to ten,
      or none when there is no such result. */
  lemma {:induction false} GatherAllKeyPhrases(actions: seq<Action>, sentimentOf: string -> SentenceSentiment, k: nat)
    requires k < |actions| && actions[k].KeyPhrases?
    requires forall j :: k < j < |actions| ==> !actions[j].KeyPhrases?
    ensures GatherAll(actions, sentimentOf).keyPhrases == Head(actions[k].phrases, MaxKeyPhrases)
    decreases |actions|
  {
    if k < |actions| - 1 {
      var init := actions[..|actions| - 1];
      assert init[k] == actions[k];
      GatherAllKeyPhrases(init, sentimentOf, k);
    }
  }

  /** The dict `analyze_text` builds from what it gathered. */
  function AnalysisDocument(g: Gathered): Json
  {
    JObj(map["key_phrases" := JList(g.keyPhrases), "sentiment" := g.sentiment,
             "extractive_summary" := JList(g.extractive), "abstractive_summary" := JList(g.abstractive)])
  }

  /** `analyze_text` over the service's answer for the single combined
      document: each action result gathered in turn; no answer leaves the
      results empty. The per-sentence sentiment call is `sentimentOf`. */
  method AnalyzeText(documentResults: seq<seq<Action>>, sentimentOf: string -> SentenceSentiment)
    returns (r: Json)
    ensures |documentResults| == 0 ==> r == JObj(map[])
    ensures |documentResults| > 0 ==> r == AnalysisDocument(GatherAll(documentResults[0], sentimentOf))
  {
    r := JObj(map[]);
    if |documentResults| == 0 {
      return;
    }
    var actions := documentResults[0];
    var g := Nothing;
    for i := 0 to |actions|
      invariant g == GatherAll(actions[..i], sentimentOf)
    {
      assert actions[..i + 1][..i] == actions[..i];
      g := Gather(g, actions[i], sentimentOf);
    }
    assert actions[..|actions|] == actions;
    r := AnalysisDocument(g);
  }

  // ---------------------------------------------------------------------
  // format_analysis_results

  /** The session suggestions: topics, the texts of the negative and of
      the positive sentences, and the summary. */
  datatype Formatted = Formatted(recommendedTopics: Json, negative: seq<Json>, positive: seq<Json>,
                                 summary: string)

  predicate AllDicts(sentences: seq<Json>)
  {
    forall i :: 0 <= i < |sentences| ==> sentences[i].JObj?
  }

  function SentimentOf(sentence: Json): Json
    requires sentence.JObj?
  {
    Get(sentence.fields, "sentiment", JStr(""))
  }

  /** The texts of the sentences labelled `label`, in order. */
  function TextsLabelled(sentences: seq<Json>, kind: string): (r: seq<Json>)
    requires AllDicts(sentences)
    ensures |r| <= |sentences|
    decreases |sentences|
  {
    if |sentences| == 0 then []
    else
      var init := sentences[..|sentences| - 1];
      var last := sentences[|sentences| - 1];
      TextsLabelled(init, kind) +
        (if SentimentOf(last) == JStr(kind) then [Get(last.fields, "text", JStr(""))] else [])
  }

  /** The sentences labelled either way, each counted once: a sentence is
      never both negative and positive, and one labelled otherwise is
      dropped. */
  function LabelledCount(sentences: seq<Json>): nat
    requires AllDicts(sentences)
    decreases |sentences|
  {
    if |sentences| == 0 then 0
    else
      var last := sentences[|sentences| - 1];
      LabelledCount(sentences[..|sentences| - 1]) +
        (if SentimentOf(last) == JStr("negative") || SentimentOf(last) == JStr("positive") then 1 else 0)
  }

  lemma {:induction false} LabelledTotal(sentences: seq<Json>)
    requires AllDicts(sentences)
    ensures |TextsLabelled(sentences, "negative")| + |TextsLabelled(sentences, "positive")| ==
      LabelledCount(sentences) <= |sentences|
    decreases |sentences|
  {
    if |sentences| > 0 {
      LabelledTotal(sentences[..|sentences| - 1]);
    }
  }

  /** `format_analysis_results`: None for anything but a dict; otherwise
      the topics are the key phrases (none by default), the summary is the
      abstractive summaries joined by spaces, and the extractive sentences
      are split by their sentiment. Joining non-text summaries, iterating a
      non-iterable summary list, or reading a sentence that is not a dict
      raises. */
  function Formatting(a: Json): Result<Option<Formatted>>
  {
    if !a.JObj? then Ok(None)
    else
      var topics := Get(a.fields, "key_phrases", JList([]));
      match SpaceJoined(Get(a.fields, "abstractive_summary", JList([])))
      case Err(e) => Err(e)
      case Ok(summary) =>
        match Items(Get(a.fields, "extractive_summary", JList([])))
        case Err(e) => Err(e)
        case Ok(sentences) =>
          if !AllDicts(sentences) then Err("AttributeError")
          else Ok(Some(Formatted(topics, TextsLabelled(sentences, "negative"),
                                 TextsLabelled(sentences, "positive"), summary)))
  }

  /** The loop of `format_analysis_results`: each sentence appended to the
      list of its sentiment. */
  method FormatAnalysisResults(a: Json) returns (r: Result<Option<Formatted>>)
    ensures r == Formatting(a)
  {
    if !a.JObj? {
      return Ok(None);
    }
    var topics := Get(a.fields, "key_phrases", JList([]));
    var summary := SpaceJoined(Get(a.fields, "abstractive_summary", JList([])));
    if summary.Err? {
      return Err(summary.error);
    }
    var sentences := Items(Get(a.fields, "extractive_summary", JList([])));
    if sentences.Err? {
      return Err(sentences.error);
    }
    var all := sentences.value;
    var negative: seq<Json> := [];
    var positive: seq<Json> := [];
    for i := 0 to |all|
      invariant AllDicts(all[..i])
      invariant negative == TextsLabelled(all[..i], "negative")
      invariant positive == TextsLabelled(all[..i], "positive")
    {
      if !all[i].JObj? {
        return Err("AttributeError");
      }
      assert all[..i + 1][..i] == all[..i];
      var sentiment := Get(all[i].fields, "sentiment", JStr(""));
      var text := Get(all[i].fields, "text", JStr(""));
      if sentiment == JStr("negative") {
        negative := negative + [text];
      } else if sentiment == JStr("positive") {
        positive := positive + [text];
      }
    }
    assert all[..|all|] == all;
    r := Ok(Some(Formatted(topics, negative, positive, summary.value)));
  }

  // ---------------------------------------------------------------------
  // The speech region

  /** `endpoint.replace('https://', '').split('.')[0]`. */
  function SpeechRegion(endpoint: string): (r: string)
    ensures HasNo(r, '.')
  {
    Split(ReplaceAll(endpoint, "https://", ""), '.')[0]
  }

  /** The first piece of a split is the text before the first separator. */
  lemma SplitFirst(a: string, sep: char, b: string)
    requires HasNo(a, sep)
    ensures Split(a + [sep] + b, sep)[0] == a
  {
    var s := a + [sep] + b;
    assert s[|a|] == sep;
    assert s[..|a|] == a;
    assert IndexOfChar(s, sep) == |a|;
  }

  /** Removing a leading pattern that does not occur again, then taking
      the first piece, leaves the text before the first separator. */
  lemma StrippedFirst(pat: string, region: string, rest: string)
    requires |pat| > 0 && HasNo(region, '.')
    requires !Contains(region + ['.'] + rest, pat)
    ensures Split(ReplaceAll(pat + (region + ['.'] + rest), pat, ""), '.')[0] == region
  {
    var tail := region + ['.'] + rest;
    ReplaceAllLeading(pat, tail, "");
    ReplaceAllAbsent(tail, pat, "");
    assert ReplaceAll(pat + tail, pat, "") == tail;
    SplitFirst(region, '.', rest);
  }

  /** For an endpoint `https://<region>.<rest>` that holds no further
      `https://`, the region is the text between the scheme and the first
      dot. */
  lemma SpeechRegionOf(region: string, rest: string)
    requires HasNo(region, '.')
    requires !Contains(region + "." + rest, "https://")
    ensures SpeechRegion("https://" + region + "." + rest) == region
  {
    var pat := "https://";
    assert "https://" + region + "." + rest == pat + (region + ['.'] + rest);
    StrippedFirst(pat, region, rest);
  }
}
