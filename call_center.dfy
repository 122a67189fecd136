/** The call-center pipeline: the transcription id read from the service's
    answer, the transcription status, the transcription file, the phrases
    of a transcription, their sentiment analysis in chunks of ten
    documents, the ordering of the sentiments by offset, the merge of the
    confidence scores into the transcription, the plain-text output, and
    the configuration read from the environment. The speech and language
    services are parameters. */
module CallCenter {
  import opened Wrappers
  import opened Strings
  import opened Json
  import opened Sorting
  import opened UserConfigHelper

  /** `os.linesep` on the POSIX hosts the service runs on. */
  const LineSep := "\n"
  const ChunkSize := 10

  // ---------------------------------------------------------------------
  // create_transcription: the transcription id

  predicate IsHexDigit(c: char)
  {
    '0' <= c <= '9' || 'a' <= c <= 'f' || 'A' <= c <= 'F'
  }

  predicate AllHex(s: string)
  {
    forall i :: 0 <= i < |s| ==> IsHexDigit(s[i])
  }

  /** What `uuid.UUID(text)` accepts once every hyphen is removed: exactly
      32 hexadecimal digits. */
  predicate ParsesAsUuid(s: string)
  {
    var digits := ReplaceAll(s, "-", "");
    |digits| == 32 && AllHex(digits)
  }

  /** The last piece of a split: the text after the last separator. */
  function LastPiece(s: string, sep: char): (r: string)
    ensures HasNo(r, sep)
  {
    var pieces := Split(s, sep);
    pieces[|pieces| - 1]
  }

  /** `create_transcription`'s result for the `self` link of the answer:
      the text after its last `/`, which must be a UUID. */
  function TranscriptionId(selfUri: string): (r: Result<string>)
    ensures r.Ok? ==> HasNo(r.value, '/') && ParsesAsUuid(r.value)
    ensures r.Err? <==> !ParsesAsUuid(LastPiece(selfUri, '/'))
  {
    var id := LastPiece(selfUri, '/');
    if ParsesAsUuid(id) then Ok(id) else Err("Exception")
  }

  /** Splitting after a piece without the separator continues with the
      rest. */
  lemma SplitAfter(a: string, sep: char, b: string)
    requires HasNo(a, sep)
    ensures Split(a + [sep] + b, sep) == [a] + Split(b, sep)
  {
    var s := a + [sep] + b;
    assert s[|a|] == sep;
    assert s[..|a|] == a;
    assert IndexOfChar(s, sep) == |a|;
    assert s[|a| + 1..] == b;
  }

  /** A leading piece without the separator does not change the last
      piece. */
  lemma LastPieceAfter(a: string, sep: char, b: string)
    requires HasNo(a, sep)
    ensures LastPiece(a + [sep] + b, sep) == LastPiece(b, sep)
  {
    SplitAfter(a, sep, b);
    var pieces := Split(b, sep);
    assert ([a] + pieces)[|pieces|] == pieces[|pieces| - 1];
  }

  /** The last piece of a text ending in `/<id>` is the id. */
  lemma {:induction false} LastPieceOf(prefix: string, sep: char, id: string)
    requires HasNo(id, sep)
    ensures LastPiece(prefix + [sep] + id, sep) == id
    decreases |prefix|
  {
    if sep in prefix {
      var i := IndexOfChar(prefix, sep);
      var a := prefix[..i];
      var rest := prefix[i + 1..];
      assert prefix == a + [sep] + rest;
      assert prefix + [sep] + id == a + [sep] + (rest + [sep] + id);
      LastPieceAfter(a, sep, rest + [sep] + id);
      LastPieceOf(rest, sep, id);
    } else {
      LastPieceAfter(prefix, sep, id);
      assert sep !in id;
    }
  }

  /** Removing one character from a text, as `replace(c, "")` does. */
  function Without(s: string, c: char): (r: string)
    decreases |s|
  {
    if |s| == 0 then [] else (if s[0] == c then [] else [s[0]]) + Without(s[1..], c)
  }

  lemma {:induction false} ReplaceAllIsWithout(s: string, c: char)
    ensures ReplaceAll(s, [c], "") == Without(s, c)
    decreases |s|
  {
    if |s| > 0 {
      ReplaceAllIsWithout(s[1..], c);
      assert s[..1] == [s[0]];
    }
  }

  lemma {:induction false} WithoutAppend(a: string, b: string, c: char)
    ensures Without(a + b, c) == Without(a, c) + Without(b, c)
    decreases |a|
  {
    if |a| > 0 {
      assert (a + b)[1..] == a[1..] + b;
      WithoutAppend(a[1..], b, c);
    } else {
      assert a + b == b;
    }
  }

  lemma {:induction false} WithoutAbsent(s: string, c: char)
    requires HasNo(s, c)
    ensures Without(s, c) == s
    decreases |s|
  {
    if |s| > 0 {
      WithoutAbsent(s[1..], c);
    }
  }

  /** The textual form of section 3 of RFC 4122: five groups of 8, 4, 4, 4
      and 12 hexadecimal digits joined by hyphens. */
  function RfcText(a: string, b: string, c: string, d: string, e: string): string
  {
    a + "-" + (b + "-" + (c + "-" + (d + "-" + e)))
  }

  predicate RfcGroups(a: string, b: string, c: string, d: string, e: string)
  {
    |a| == 8 && |b| == 4 && |c| == 4 && |d| == 4 && |e| == 12 &&
    AllHex(a) && AllHex(b) && AllHex(c) && AllHex(d) && AllHex(e)
  }

  /** A piece without the character, followed by the character, keeps
      only the piece. */
  lemma SkipSeparator(x: string, c: char, rest: string)
    requires HasNo(x, c)
    ensures Without(x + [c] + rest, c) == x + Without(rest, c)
  {
    var left := x + [c];
    WithoutAppend(x, [c], c);
    assert Without([c], c) == [] by {
      assert [c][1..] == [];
    }
    WithoutAbsent(x, c);
    assert Without(left, c) == x;
    WithoutAppend(left, rest, c);
  }

  /** A group of hexadecimal digits followed by a hyphen loses only the
      hyphen. */
  lemma HexGroup(x: string, rest: string)
    requires AllHex(x)
    ensures Without(x + "-" + rest, '-') == x + Without(rest, '-')
  {
    assert HasNo(x, '-');
    SkipSeparator(x, '-', rest);
  }

  lemma AllHexAppend(x: string, y: string)
    requires AllHex(x) && AllHex(y)
    ensures AllHex(x + y)
  {
  }

  /** Every id in the textual form of RFC 4122 is accepted. */
  lemma RfcTextParses(a: string, b: string, c: string, d: string, e: string)
    requires RfcGroups(a, b, c, d, e)
    ensures ParsesAsUuid(RfcText(a, b, c, d, e))
  {
    var s := RfcText(a, b, c, d, e);
    ReplaceAllIsWithout(s, '-');
    HexGroup(d, e);
    HexGroup(c, d + "-" + e);
    HexGroup(b, c + "-" + (d + "-" + e));
    HexGroup(a, b + "-" + (c + "-" + (d + "-" + e)));
    assert HasNo(e, '-');
    WithoutAbsent(e, '-');
    AllHexAppend(d, e);
    AllHexAppend(c, d + e);
    AllHexAppend(b, c + (d + e));
    AllHexAppend(a, b + (c + (d + e)));
  }

  /** A `self` link ending in an RFC 4122 id gives that id back. */
  lemma TranscriptionIdOfLink(prefix: string, a: string, b: string, c: string, d: string, e: string)
    requires RfcGroups(a, b, c, d, e)
    ensures TranscriptionId(prefix + "/" + RfcText(a, b, c, d, e)) == Ok(RfcText(a, b, c, d, e))
  {
    var id := RfcText(a, b, c, d, e);
    RfcTextParses(a, b, c, d, e);
    assert HasNo(id, '/');
    LastPieceOf(prefix, '/', id);
  }

  // ---------------------------------------------------------------------
  // get_transcription_status and get_transcription_uri

  /** `get_transcription_status`: a failed transcription raises; otherwise
      it is done exactly when it succeeded. Case is ignored. */
  function TranscriptionDone(status: string): (r: Result<bool>)
    ensures r.Err? <==> Lower(status) == "failed"
    ensures r.Ok? ==> (r.value <==> Lower(status) == "succeeded")
  {
    if Lower(status) == "failed" then Err("Exception") else Ok(Lower(status) == "succeeded")
  }

  lemma TranscriptionDoneAnyCase()
    ensures TranscriptionDone("Succeeded") == Ok(true)
    ensures TranscriptionDone("FAILED").Err?
    ensures TranscriptionDone("Running") == Ok(false)
  {
    assert Lower("Succeeded") == "succeeded";
    assert Lower("FAILED") == "failed";
    assert Lower("Running") == "running";
  }

  /** One entry of the transcription files: its kind and content link. */
  datatype FileEntry = FileEntry(kind: string, contentUrl: string)

  predicate IsTranscription(f: FileEntry)
  {
    Lower(f.kind) == "transcription"
  }

  /** `get_transcription_uri`: the link of the first transcription entry;
      none raises. */
  function TranscriptionUri(values: seq<FileEntry>): (r: Result<string>)
    ensures r.Err? <==> forall i :: 0 <= i < |values| ==> !IsTranscription(values[i])
    ensures r.Ok? ==>
      exists i :: 0 <= i < |values| && IsTranscription(values[i]) && r.value == values[i].contentUrl &&
        forall j :: 0 <= j < i ==> !IsTranscription(values[j])
    decreases |values|
  {
    if |values| == 0 then Err("Exception")
    else if IsTranscription(values[0]) then Ok(values[0].contentUrl)
    else
      var r := TranscriptionUri(values[1..]);
      assert forall i :: 1 <= i < |values| ==> values[1..][i - 1] == values[i];
      if r.Ok? then
        var i :| 0 <= i < |values| - 1 && IsTranscription(values[1..][i]) &&
          r.value == values[1..][i].contentUrl && forall j :: 0 <= j < i ==> !IsTranscription(values[1..][j]);
        assert values[i + 1] == values[1..][i];
        r
      else r
  }

  // ---------------------------------------------------------------------
  // get_transcription_phrases

  /** A recognised phrase of the transcription: its best readings, the
      speaker (mono) or channel (stereo), and its offset. */
  datatype Recognized = Recognized(nBest: seq<Document>, speaker: Option<int>, channel: Option<int>,
                                   offset: Json, offsetInTicks: int)

  /** A transcription phrase as the pipeline uses it. */
  datatype Phrase = Phrase(id: nat, text: Json, itn: Json, lexical: Json, speakerNumber: int,
                           offset: Json, offsetInTicks: int)

  /** The speaker of a phrase: speakers count from 1 and channels from 0. */
  function SpeakerNumber(p: Recognized): (r: Result<int>)
    ensures r.Ok? <==> p.speaker.Some? || p.channel.Some?
    ensures p.speaker.Some? ==> r == Ok(p.speaker.value - 1)
    ensures p.speaker.None? && p.channel.Some? ==> r == Ok(p.channel.value)
  {
    if p.speaker.Some? then Ok(p.speaker.value - 1)
    else if p.channel.Some? then Ok(p.channel.value)
    else Err("Exception")
  }

  /** One phrase: the best reading must exist and carry the three texts. */
  function PhraseOf(p: Recognized, id: nat): Result<Phrase>
  {
    if |p.nBest| == 0 then Err("IndexError")
    else
      var best := p.nBest[0];
      var speaker :- SpeakerNumber(p);
      if "display" in best && "itn" in best && "lexical" in best then
        Ok(Phrase(id, best["display"], best["itn"], best["lexical"], speaker, p.offset, p.offsetInTicks))
      else Err("KeyError")
  }

  /** `get_transcription_phrases`. */
  function TranscriptionPhrases(recognized: seq<Recognized>): Result<seq<Phrase>>
  {
    MapAll(recognized, PhraseOf)
  }

  /** Phrase i has id i, the texts of its first best reading, the speaker
      rule and the phrase's offset. */
  lemma TranscriptionPhrasesShape(recognized: seq<Recognized>)
    requires TranscriptionPhrases(recognized).Ok?
    ensures var ps := TranscriptionPhrases(recognized).value;
      |ps| == |recognized| &&
      forall i :: 0 <= i < |ps| ==>
        ps[i].id == i && |recognized[i].nBest| > 0 &&
        ps[i].text == recognized[i].nBest[0]["display"] &&
        Ok(ps[i].speakerNumber) == SpeakerNumber(recognized[i]) &&
        ps[i].offsetInTicks == recognized[i].offsetInTicks
  {
    var ps := TranscriptionPhrases(recognized).value;
    forall i | 0 <= i < |ps|
      ensures ps[i].id == i && |recognized[i].nBest| > 0 &&
        ps[i].text == recognized[i].nBest[0]["display"] &&
        Ok(ps[i].speakerNumber) == SpeakerNumber(recognized[i]) &&
        ps[i].offsetInTicks == recognized[i].offsetInTicks
    {
      assert PhraseOf(recognized[i], i) == Ok(ps[i]);
    }
  }

  /** `sorted(recognizedPhrases, key=offsetInTicks)` in `run`. */
  function ByOffset(a: Recognized, b: Recognized): int
  {
    a.offsetInTicks - b.offsetInTicks
  }

  lemma ByOffsetIsComparator()
    ensures IsComparator(ByOffset)
  {
    forall a, b ensures Sign(ByOffset(a, b)) == -Sign(ByOffset(b, a)) {
    }
  }

  /** The phrases `run` reads are ordered by offset and are the phrases
      of the transcription, reordered. */
  lemma PhrasesByOffset(recognized: seq<Recognized>)
    ensures var s := SortBy(ByOffset, recognized);
      multiset(s) == multiset(recognized) &&
      forall i, j :: 0 <= i < j < |s| ==> s[i].offsetInTicks <= s[j].offsetInTicks
  {
    var s := SortBy(ByOffset, recognized);
    ByOffsetIsComparator();
    SortByPermutes(ByOffset, recognized);
    SortBySorted(ByOffset, recognized);
    forall i, j | 0 <= i < j < |s| ensures s[i].offsetInTicks <= s[j].offsetInTicks {
      assert ByOffset(s[i], s[j]) <= 0;
    }
  }

  // ---------------------------------------------------------------------
  // get_sentiment_analysis

  /** A sentiment result: the phrase's speaker and offset with the
      document the language service returned. */
  datatype SentimentResult = SentimentResult(speakerNumber: int, offsetInTicks: int, document: Document)

  /** The document sent for one phrase. */
  function DocumentOf(p: Phrase, language: string): Document
  {
    map["id" := JInt(p.id), "language" := JStr(language), "text" := p.text]
  }

  function Documents(phrases: seq<Phrase>, language: string): (r: seq<Document>)
    ensures |r| == |phrases| && forall i :: 0 <= i < |phrases| ==> r[i] == DocumentOf(phrases[i], language)
  {
    seq(|phrases|, i requires 0 <= i < |phrases| => DocumentOf(phrases[i], language))
  }

  /** The speaker and offset of each phrase id; a later phrase with the
      same id wins. */
  function PhraseData(phrases: seq<Phrase>): map<int, (int, int)>
    decreases |phrases|
  {
    if |phrases| == 0 then map[]
    else
      var last := phrases[|phrases| - 1];
      PhraseData(phrases[..|phrases| - 1])[last.id := (last.speakerNumber, last.offsetInTicks)]
  }

  /** The documents in consecutive chunks of at most `n`; the chunking
      helper itself is not part of this model. */
  function Chunks<T>(xs: seq<T>, n: nat): (r: seq<seq<T>>)
    requires n > 0
    ensures forall i :: 0 <= i < |r| ==> 0 < |r[i]| <= n
    decreases |xs|
  {
    if |xs| == 0 then []
    else if |xs| <= n then [xs]
    else [xs[..n]] + Chunks(xs[n..], n)
  }

  function Flatten<T>(xss: seq<seq<T>>): seq<T>
    decreases |xss|
  {
    if |xss| == 0 then [] else Flatten(xss[..|xss| - 1]) + xss[|xss| - 1]
  }

  lemma {:induction false} FlattenCons<T>(x: seq<T>, xss: seq<seq<T>>)
    ensures Flatten([x] + xss) == x + Flatten(xss)
    decreases |xss|
  {
    if |xss| > 0 {
      var init := xss[..|xss| - 1];
      assert ([x] + xss)[..|xss|] == [x] + init;
      FlattenCons(x, init);
    } else {
      assert [x] + xss == [x];
      assert [x][..0] == [];
    }
  }

  /** The chunks, put back together, are the documents in order. */
  lemma {:induction false} ChunksFlatten<T>(xs: seq<T>, n: nat)
    requires n > 0
    ensures Flatten(Chunks(xs, n)) == xs
    decreases |xs|
  {
    if |xs| > n {
      ChunksFlatten(xs[n..], n);
      FlattenCons(xs[..n], Chunks(xs[n..], n));
      assert xs[..n] + xs[n..] == xs;
    } else if |xs| > 0 {
      assert [xs][..0] == [];
    }
  }

  /** `int(document["id"])`. */
  function DocumentId(d: Document): Result<int>
  {
    if "id" !in d then Err("KeyError")
    else
      match d["id"]
      case JInt(i) => Ok(i)
      case JBool(b) => Ok(if b then 1 else 0)
      case JStr(s) => ParseInt(s)
      case _ => Err("TypeError")
  }

  /** The result for one returned document: the phrase data of its id. */
  function ResultFor(data: map<int, (int, int)>, d: Document): Result<SentimentResult>
  {
    var id :- DocumentId(d);
    if id in data then Ok(SentimentResult(data[id].0, data[id].1, d)) else Err("KeyError")
  }

  /** The results for the returned documents, in order; the first failure
      escapes. */
  function Resolve(data: map<int, (int, int)>, returned: seq<Document>): (r: Result<seq<SentimentResult>>)
    ensures r.Ok? ==> |r.value| == |returned|
    decreases |returned|
  {
    if |returned| == 0 then Ok([])
    else
      var init :- Resolve(data, returned[..|returned| - 1]);
      var last :- ResultFor(data, returned[|returned| - 1]);
      Ok(init + [last])
  }

  /** `get_sentiment_analysis` as a value: the documents sent in chunks of
      ten to `analyse`, and each returned document paired with the speaker
      and offset of its phrase. */
  function SentimentAnalysis(phrases: seq<Phrase>, language: string,
                             analyse: seq<Document> -> seq<Document>): Result<seq<SentimentResult>>
  {
    var chunks := Chunks(Documents(phrases, language), ChunkSize);
    Resolve(PhraseData(phrases), Flatten(seq(|chunks|, i requires 0 <= i < |chunks| => analyse(chunks[i]))))
  }

  /** Every chunk sent holds at most ten documents, and the chunks are all
      the documents in order, one per phrase. */
  lemma SentimentChunks(phrases: seq<Phrase>, language: string)
    ensures var chunks := Chunks(Documents(phrases, language), ChunkSize);
      (forall i :: 0 <= i < |chunks| ==> 0 < |chunks[i]| <= ChunkSize) &&
      Flatten(chunks) == Documents(phrases, language)
  {
    ChunksFlatten(Documents(phrases, language), ChunkSize);
  }

  /** Every returned document gives one result, in order, carrying that
      document and the speaker and offset of the phrase its id names. */
  lemma {:induction false} ResolveResults(data: map<int, (int, int)>, returned: seq<Document>)
    requires Resolve(data, returned).Ok?
    ensures var r := Resolve(data, returned).value;
      forall i :: 0 <= i < |r| ==>
        r[i].document == returned[i] && DocumentId(returned[i]).Ok? &&
        DocumentId(returned[i]).value in data &&
        (r[i].speakerNumber, r[i].offsetInTicks) == data[DocumentId(returned[i]).value]
    decreases |returned|
  {
    if |returned| > 0 {
      var init := returned[..|returned| - 1];
      ResolveResults(data, init);
      var r := Resolve(data, returned).value;
      assert r[..|init|] == Resolve(data, init).value;
    }
  }

  /** The phrase data holds each phrase id of distinct-id phrases with
      that phrase's speaker and offset. */
  lemma {:induction false} PhraseDataOf(phrases: seq<Phrase>, i: nat)
    requires i < |phrases|
    requires forall j, k :: 0 <= j < k < |phrases| ==> phrases[j].id != phrases[k].id
    ensures phrases[i].id in PhraseData(phrases)
    ensures PhraseData(phrases)[phrases[i].id] == (phrases[i].speakerNumber, phrases[i].offsetInTicks)
    decreases |phrases|
  {
    if i < |phrases| - 1 {
      PhraseDataOf(phrases[..|phrases| - 1], i);
    }
  }

  lemma AppendNext<T>(done: seq<T>, chunk: seq<T>, j: nat)
    requires j < |chunk|
    ensures done + chunk[..j + 1] == done + chunk[..j] + [chunk[j]]
  {
    assert chunk[..j + 1] == chunk[..j] + [chunk[j]];
  }

  lemma FlattenStep<T>(xss: seq<seq<T>>, k: nat)
    requires k < |xss|
    ensures Flatten(xss[..k + 1]) == Flatten(xss[..k]) + xss[k]
  {
    assert xss[..k + 1][..k] == xss[..k];
  }

  /** One more returned document: its result is appended, or its failure
      is the failure of all. */
  lemma ResolveStep(data: map<int, (int, int)>, returned: seq<Document>, d: Document)
    requires Resolve(data, returned).Ok?
    ensures Resolve(data, returned + [d]) ==
      if ResultFor(data, d).Err? then Err(ResultFor(data, d).error)
      else Ok(Resolve(data, returned).value + [ResultFor(data, d).value])
  {
    assert (returned + [d])[..|returned|] == returned;
  }

  /** A document of a chunk that fails makes the whole analysis fail with
      its error. */
  lemma ChunkFailure(data: map<int, (int, int)>, xss: seq<seq<Document>>, k: nat, j: nat)
    requires k < |xss| && j < |xss[k]|
    requires Resolve(data, Flatten(xss[..k]) + xss[k][..j + 1]).Err?
    ensures Resolve(data, Flatten(xss)) == Resolve(data, Flatten(xss[..k]) + xss[k][..j + 1])
  {
    var all := Flatten(xss[..k]) + xss[k][..j + 1];
    var whole := Flatten(xss);
    FlattenPrefix(xss, k + 1);
    FlattenStep(xss, k);
    assert all == (Flatten(xss[..k]) + xss[k])[..|all|];
    assert all == whole[..|all|];
    ResolvePrefixFails(data, whole, |all|);
  }

  /** `get_sentiment_analysis`: the phrase data and the documents built in
      one loop, the chunks sent, then each returned document of each chunk
      resolved in turn. */
  method GetSentimentAnalysis(phrases: seq<Phrase>, language: string,
                              analyse: seq<Document> -> seq<Document>)
    returns (r: Result<seq<SentimentResult>>)
    ensures r == SentimentAnalysis(phrases, language, analyse)
  {
    var data: map<int, (int, int)> := map[];
    var documents: seq<Document> := [];
    for i := 0 to |phrases|
      invariant data == PhraseData(phrases[..i])
      invariant documents == Documents(phrases[..i], language)
    {
      assert phrases[..i + 1][..i] == phrases[..i];
      data := data[phrases[i].id := (phrases[i].speakerNumber, phrases[i].offsetInTicks)];
      documents := documents + [DocumentOf(phrases[i], language)];
    }
    assert phrases[..|phrases|] == phrases;
    var chunks := Chunks(documents, ChunkSize);
    var resultChunks := seq(|chunks|, i requires 0 <= i < |chunks| => analyse(chunks[i]));
    var retval: seq<SentimentResult> := [];
    for k := 0 to |resultChunks|
      invariant Resolve(data, Flatten(resultChunks[..k])) == Ok(retval)
    {
      var chunk := resultChunks[k];
      ghost var done := Flatten(resultChunks[..k]);
      assert done + chunk[..0] == done;
      for j := 0 to |chunk|
        invariant Resolve(data, done + chunk[..j]) == Ok(retval)
      {
        var next := ResultFor(data, chunk[j]);
        ResolveStep(data, done + chunk[..j], chunk[j]);
        AppendNext(done, chunk, j);
        if next.Err? {
          ChunkFailure(data, resultChunks, k, j);
          return Err(next.error);
        }
        retval := retval + [next.value];
      }
      assert chunk[..|chunk|] == chunk;
      FlattenStep(resultChunks, k);
    }
    r := Ok(retval);
    assert resultChunks[..|resultChunks|] == resultChunks;
  }

  /** Once a prefix of the returned documents fails, resolving all of
      them fails with the same error. */
  lemma {:induction false} ResolvePrefixFails(data: map<int, (int, int)>, returned: seq<Document>, n: nat)
    requires n <= |returned| && Resolve(data, returned[..n]).Err?
    ensures Resolve(data, returned) == Resolve(data, returned[..n])
    decreases |returned| - n
  {
    if n < |returned| {
      assert returned[..n + 1][..n] == returned[..n];
      ResolvePrefixFails(data, returned, n + 1);
    } else {
      assert returned[..n] == returned;
    }
  }

  /** The first chunks, flattened, begin the flattening of all chunks. */
  lemma {:induction false} FlattenPrefix<T>(xss: seq<seq<T>>, k: nat)
    requires k <= |xss|
    ensures |Flatten(xss[..k])| <= |Flatten(xss)|
    ensures Flatten(xss[..k]) == Flatten(xss)[..|Flatten(xss[..k])|]
    decreases |xss| - k
  {
    if k < |xss| {
      FlattenPrefix(xss, k + 1);
      assert xss[..k + 1][..k] == xss[..k];
    } else {
      assert xss[..k] == xss;
    }
  }

  // ---------------------------------------------------------------------
  // The sentiments ordered by offset

  function ResultsByOffset(a: SentimentResult, b: SentimentResult): int
  {
    a.offsetInTicks - b.offsetInTicks
  }

  lemma ResultsByOffsetIsComparator()
    ensures IsComparator(ResultsByOffset)
  {
    forall a, b ensures Sign(ResultsByOffset(a, b)) == -Sign(ResultsByOffset(b, a)) {
    }
  }

  function FieldOf(key: string): (SentimentResult, nat) -> Result<Json>
  {
    (r: SentimentResult, i: nat) => if key in r.document then Ok(r.document[key]) else Err("KeyError")
  }

  /** `get_sentiments_for_simple_output` (key `sentiment`) and
      `get_sentiment_confidence_scores` (key `confidenceScores`): the
      results sorted by offset, then that field of each document. */
  function ByOffsetField(results: seq<SentimentResult>, key: string): Result<seq<Json>>
  {
    MapAll(SortBy(ResultsByOffset, results), FieldOf(key))
  }

  /** The field list follows the results in offset order, earliest first
      (equal offsets in their original order), one entry per result. */
  lemma ByOffsetFieldOrdered(results: seq<SentimentResult>, key: string)
    requires ByOffsetField(results, key).Ok?
    ensures var sorted := SortBy(ResultsByOffset, results);
      var r := ByOffsetField(results, key).value;
      |r| == |results| && multiset(sorted) == multiset(results) &&
      (forall i :: 0 <= i < |r| ==> key in sorted[i].document && r[i] == sorted[i].document[key]) &&
      (forall i, j :: 0 <= i < j < |r| ==> sorted[i].offsetInTicks <= sorted[j].offsetInTicks)
  {
    var sorted := SortBy(ResultsByOffset, results);
    var r := ByOffsetField(results, key).value;
    ResultsByOffsetIsComparator();
    SortByPermutes(ResultsByOffset, results);
    SortBySorted(ResultsByOffset, results);
    forall i | 0 <= i < |r| ensures key in sorted[i].document && r[i] == sorted[i].document[key] {
      assert FieldOf(key)(sorted[i], i) == Ok(r[i]);
    }
    forall i, j | 0 <= i < j < |r| ensures sorted[i].offsetInTicks <= sorted[j].offsetInTicks {
      assert ResultsByOffset(sorted[i], sorted[j]) <= 0;
    }
  }

  // ---------------------------------------------------------------------
  // merge_sentiment_confidence_scores_into_transcription

  /** The readings of one phrase, each given the phrase's score. */
  function WithScore(nBest: seq<Document>, score: Json): (r: seq<Document>)
    ensures |r| == |nBest| && forall j :: 0 <= j < |nBest| ==> r[j] == nBest[j]["sentiment" := score]
  {
    seq(|nBest|, j requires 0 <= j < |nBest| => nBest[j]["sentiment" := score])
  }

  /** Phrase i reads score i when it has any reading; a phrase with
      readings beyond the scores raises IndexError. */
  predicate ScoresCover(phrases: seq<Recognized>, scores: seq<Json>)
  {
    forall i :: 0 <= i < |phrases| && |phrases[i].nBest| > 0 ==> i < |scores|
  }

  function Merged(phrases: seq<Recognized>, scores: seq<Json>): Result<seq<Recognized>>
  {
    if !ScoresCover(phrases, scores) then Err("IndexError")
    else Ok(seq(|phrases|, i requires 0 <= i < |phrases| =>
              phrases[i].(nBest := if |phrases[i].nBest| == 0 then [] else WithScore(phrases[i].nBest, scores[i]))))
  }

  /** After the merge every reading of phrase i carries exactly score i,
      every other field of the reading is kept, and the phrases are
      otherwise unchanged. */
  lemma MergedScores(phrases: seq<Recognized>, scores: seq<Json>)
    requires Merged(phrases, scores).Ok?
    ensures var m := Merged(phrases, scores).value;
      |m| == |phrases| &&
      forall i :: 0 <= i < |m| ==>
        m[i].speaker == phrases[i].speaker && m[i].offsetInTicks == phrases[i].offsetInTicks &&
        |m[i].nBest| == |phrases[i].nBest| &&
        forall j :: 0 <= j < |m[i].nBest| ==>
          m[i].nBest[j]["sentiment"] == scores[i] &&
          forall k :: k in phrases[i].nBest[j] && k != "sentiment" ==> m[i].nBest[j][k] == phrases[i].nBest[j][k]
  {
  }

  /** The merge loop: every reading of every phrase is written in place. */
  method MergeScores(phrases: seq<Recognized>, scores: seq<Json>) returns (r: Result<seq<Recognized>>)
    ensures r == Merged(phrases, scores)
  {
    var merged := phrases;
    for i := 0 to |phrases|
      invariant |merged| == |phrases|
      invariant ScoresCover(phrases[..i], scores)
      invariant forall k :: 0 <= k < i ==> merged[k] == phrases[k].(nBest := if |phrases[k].nBest| == 0 then [] else WithScore(phrases[k].nBest, scores[k]))
      invariant forall k :: i <= k < |phrases| ==> merged[k] == phrases[k]
    {
      var nBest := merged[i].nBest;
      if |nBest| > 0 && i >= |scores| {
        assert !ScoresCover(phrases, scores);
        return Err("IndexError");
      }
      for j := 0 to |nBest|
        invariant |nBest| == |phrases[i].nBest|
        invariant forall k :: 0 <= k < j ==> nBest[k] == phrases[i].nBest[k]["sentiment" := scores[i]]
        invariant forall k :: j <= k < |nBest| ==> nBest[k] == phrases[i].nBest[k]
      {
        nBest := nBest[j := nBest[j]["sentiment" := scores[i]]];
      }
      if |nBest| == 0 {
        assert nBest == [];
      } else {
        assert nBest == WithScore(phrases[i].nBest, scores[i]);
      }
      merged := merged[i := merged[i].(nBest := nBest)];
    }
    assert phrases[..|phrases|] == phrases;
    assert ScoresCover(phrases, scores);
    r := Ok(merged);
    assert r.value == Merged(phrases, scores).value;
  }

  // ---------------------------------------------------------------------
  // get_simple_output

  /** One line of the output: a caption, a value and the line separator. */
  function Line(caption: string, value: string): string
  {
    caption + value + LineSep
  }

  /** The block of one phrase: its text, its speaker, its sentiment when
      there is one for its index, then an empty line. */
  function Block(p: Phrase, index: nat, sentiments: seq<Json>): string
  {
    Line("Phrase: ", Show(p.text)) +
    Line("Speaker: ", IntToString(p.speakerNumber)) +
    (if index < |sentiments| then Line("Sentiment: ", Show(sentiments[index])) else "") +
    LineSep
  }

  function SimpleOutput(phrases: seq<Phrase>, sentiments: seq<Json>): string
    decreases |phrases|
  {
    if |phrases| == 0 then ""
    else SimpleOutput(phrases[..|phrases| - 1], sentiments) + Block(phrases[|phrases| - 1], |phrases| - 1, sentiments)
  }

  /** `get_simple_output`: the text grown line by line. */
  method GetSimpleOutput(phrases: seq<Phrase>, sentiments: seq<Json>) returns (result: string)
    ensures result == SimpleOutput(phrases, sentiments)
  {
    result := "";
    for index := 0 to |phrases|
      invariant result == SimpleOutput(phrases[..index], sentiments)
    {
      SimpleOutputStep(phrases, index, sentiments);
      ghost var before := result;
      var phrase := phrases[index];
      result := result + Line("Phrase: ", Show(phrase.text));
      result := result + Line("Speaker: ", IntToString(phrase.speakerNumber));
      if index < |sentiments| {
        result := result + Line("Sentiment: ", Show(sentiments[index]));
      }
      result := result + LineSep;
      ghost var l3 := if index < |sentiments| then Line("Sentiment: ", Show(sentiments[index])) else "";
      AppendLines(before, Line("Phrase: ", Show(phrase.text)), Line("Speaker: ", IntToString(phrase.speakerNumber)), l3, LineSep);
    }
    assert phrases[..|phrases|] == phrases;
  }

  /** Appending a block is appending its lines one after the other. */
  lemma AppendLines(before: string, l1: string, l2: string, l3: string, l4: string)
    ensures before + (l1 + l2 + l3 + l4) == before + l1 + l2 + l3 + l4
  {
  }

  lemma SimpleOutputStep(phrases: seq<Phrase>, index: nat, sentiments: seq<Json>)
    requires index < |phrases|
    ensures SimpleOutput(phrases[..index + 1], sentiments) ==
      SimpleOutput(phrases[..index], sentiments) + Block(phrases[index], index, sentiments)
  {
    assert phrases[..index + 1][..index] == phrases[..index];
  }

  /** The number of line breaks in a text. */
  function Breaks(s: string): nat
    decreases |s|
  {
    if |s| == 0 then 0 else (if s[0] == '\n' then 1 else 0) + Breaks(s[1..])
  }

  lemma {:induction false} BreaksAppend(a: string, b: string)
    ensures Breaks(a + b) == Breaks(a) + Breaks(b)
    decreases |a|
  {
    if |a| > 0 {
      assert (a + b)[1..] == a[1..] + b;
      BreaksAppend(a[1..], b);
    } else {
      assert a + b == b;
    }
  }

  lemma {:induction false} NoBreaks(s: string)
    requires HasNo(s, '\n')
    ensures Breaks(s) == 0
    decreases |s|
  {
    if |s| > 0 {
      NoBreaks(s[1..]);
    }
  }

  lemma {:induction false} DigitsHaveNoBreak(n: nat)
    ensures HasNo(NatToString(n), '\n')
    decreases n
  {
    if n >= 10 {
      DigitsHaveNoBreak(n / 10);
    }
  }

  lemma IntHasNoBreak(i: int)
    ensures HasNo(IntToString(i), '\n')
  {
    if i < 0 {
      DigitsHaveNoBreak(-i);
      assert IntToString(i) == "-" + NatToString(-i);
    } else {
      DigitsHaveNoBreak(i);
    }
  }

  /** A one-line text: what `Show` gives has no line break. */
  predicate OneLine(j: Json)
  {
    HasNo(Show(j), '\n')
  }

  /** The breaks of a line: a text without breaks and one separator. */
  lemma LineBreaks(head: string, text: string)
    requires HasNo(head, '\n') && HasNo(text, '\n')
    ensures Breaks(Line(head, text)) == 1
  {
    NoBreaks(head);
    NoBreaks(text);
    BreaksAppend(head, text);
    BreaksAppend(head + text, LineSep);
    assert Breaks(LineSep) == 1;
  }

  /** A block has three lines, four when there is a sentiment for its
      index. */
  lemma BlockBreaks(p: Phrase, index: nat, sentiments: seq<Json>)
    requires OneLine(p.text)
    requires index < |sentiments| ==> OneLine(sentiments[index])
    ensures Breaks(Block(p, index, sentiments)) == if index < |sentiments| then 4 else 3
  {
    var l1 := Line("Phrase: ", Show(p.text));
    var l2 := Line("Speaker: ", IntToString(p.speakerNumber));
    var l3 := if index < |sentiments| then Line("Sentiment: ", Show(sentiments[index])) else "";
    LineBreaks("Phrase: ", Show(p.text));
    IntHasNoBreak(p.speakerNumber);
    LineBreaks("Speaker: ", IntToString(p.speakerNumber));
    if index < |sentiments| {
      LineBreaks("Sentiment: ", Show(sentiments[index]));
    }
    assert Breaks(LineSep) == 1;
    BreaksAppend(l1, l2);
    BreaksAppend(l1 + l2, l3);
    BreaksAppend(l1 + l2 + l3, LineSep);
  }

  /** With one-line texts and sentiments, the output has three lines per
      phrase plus one sentiment line for each phrase whose index has a
      sentiment. */
  lemma {:induction false} SimpleOutputLines(phrases: seq<Phrase>, sentiments: seq<Json>)
    requires forall i :: 0 <= i < |phrases| ==> OneLine(phrases[i].text)
    requires forall i :: 0 <= i < |sentiments| ==> OneLine(sentiments[i])
    ensures Breaks(SimpleOutput(phrases, sentiments)) ==
      3 * |phrases| + (if |phrases| < |sentiments| then |phrases| else |sentiments|)
    decreases |phrases|
  {
    if |phrases| > 0 {
      var init := phrases[..|phrases| - 1];
      SimpleOutputLines(init, sentiments);
      BlockBreaks(phrases[|phrases| - 1], |phrases| - 1, sentiments);
      BreaksAppend(SimpleOutput(init, sentiments), Block(phrases[|phrases| - 1], |phrases| - 1, sentiments));
    }
  }

  // ---------------------------------------------------------------------
  // run: the configuration read from the environment

  /** An endpoint with its scheme removed when it starts with one. */
  function WithoutScheme(endpoint: string): string
  {
    if StartsWith(endpoint, Https) then ReplaceAll(endpoint, Https, "") else endpoint
  }

  function EnvOr(env: map<string, string>, key: string, default: string): string
  {
    if key in env then env[key] else default
  }

  function EnvOption(env: map<string, string>, key: string): Option<string>
  {
    if key in env then Some(env[key]) else None
  }

  /** `run`'s configuration when `AZURE_AI_KEY` is set and not empty;
      without it the command-line arguments are read instead. */
  function ConfigFromEnvironment(env: map<string, string>, argv: seq<string>): (r: Result<Config>)
    ensures EnvOr(env, "AZURE_AI_KEY", "") == "" ==> r == UserConfigFromArgs(argv)
  {
    if EnvOr(env, "AZURE_AI_KEY", "") == "" then UserConfigFromArgs(argv)
    else Ok(Config(env["AZURE_AI_KEY"],
                   WithoutScheme(EnvOr(env, "AZURE_SPEECH_ENDPOINT", "")),
                   WithoutScheme(EnvOr(env, "AZURE_LANGUAGE_ENDPOINT", "")),
                   EnvOr(env, "LANGUAGE", "en"),
                   EnvOr(env, "LOCALE", "en-US"),
                   EnvOption(env, "INPUT_URL"),
                   EnvOption(env, "OUTPUT_FILE"),
                   Lower(EnvOr(env, "USE_STEREO", "false")) == "true"))
  }

  /** The scheme is removed from an endpoint that has it once. */
  lemma WithoutSchemeOf(host: string)
    requires !Contains(host, Https)
    ensures WithoutScheme(Https + host) == host
  {
    assert StartsWith(Https + host, Https) by {
      assert (Https + host)[..|Https|] == Https;
    }
    ReplaceAllLeading(Https, host, "");
    ReplaceAllAbsent(host, Https, "");
  }

  /** From the environment, the endpoints lose their scheme, the language
      and locale default to `en` and `en-US`, and stereo is on exactly for
      `true` in any case. */
  lemma EnvironmentConfig(env: map<string, string>, argv: seq<string>)
    requires "AZURE_AI_KEY" in env && env["AZURE_AI_KEY"] != ""
    ensures var c := ConfigFromEnvironment(env, argv).value;
      ConfigFromEnvironment(env, argv).Ok? &&
      c.subscriptionKey == env["AZURE_AI_KEY"] &&
      ("LANGUAGE" !in env ==> c.language == "en") &&
      ("LOCALE" !in env ==> c.locale == "en-US") &&
      ("USE_STEREO" !in env ==> !c.useStereoAudio) &&
      c.inputAudioUrl.Some? == ("INPUT_URL" in env)
  {
    assert Lower("false") == "false";
  }
}
