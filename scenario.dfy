/**
 * The end-to-end scenario of tests/test_end_to_end.py: one small text file
 * is ingested through the fake vector store, a question is answered in
 * offline mode, and the answer quotes the file and cites it as its first
 * source.
 */
module EndToEnd {
  import opened Wrappers
  import opened PyStr
  import opened Index
  import Config
  import Llm
  import Ingest
  import QueryEngine

  const FirstLine: seq<string> := ["Josef", "loves", "building", "scalable", "businesses."]
  const SecondLine: seq<string> := ["Automation", "unlocks", "leverage", "for", "sales", "and", "brand."]

  /** The two lines written to `sources/sample.txt`. */
  const SampleText: string := Lines(FirstLine, SecondLine)

  const SourceDir: Ingest.Path := ["tmp", "sources"]
  const SamplePath: Ingest.Path := SourceDir + ["sample.txt"]
  const SampleKey: string := "sources/sample.txt"
  const AskedQuestion: string := "How can Josef scale sales?"

  /** The variables the test sets before reloading the configuration. */
  const TestEnv: Config.Env := map[
    "SOURCE_DIRS" := "/tmp/sources",
    "EMBEDDINGS_PATH" := "/tmp/embeddings",
    "OPENAI_MODEL" := "gpt-5-turbo",
    "USE_OPENAI_EMBEDDINGS" := "false",
    "OPENAI_API_KEY" := "sk-test",
    "LLM_MODE" := "offline"]

  /** The temporary directory: one regular file, holding `text`, below the source directory. */
  function Files(text: string): Ingest.FileSystem {
    Ingest.FileSystem(
      map[SourceDir := [Ingest.Listed(SamplePath, true)]],
      map[SamplePath := Ingest.FileContent(None, None, Ok(text))])
  }

  /** The listing of the temporary directory holds only paths below it. */
  lemma {:induction false} SampleWalksBelow(text: string)
    ensures Ingest.WalksBelow(Files(text))
  {
    assert SamplePath[..|SourceDir|] == SourceDir;
  }

  /** The patched `embed_chunks`: `[1.0, 1.0, 1.0]` for every chunk. */
  function Embed(chunks: seq<string>): (r: seq<seq<real>>)
    ensures |r| == |chunks|
  {
    seq(|chunks|, _ => [1.0, 1.0, 1.0])
  }

  /** The one record the ingestion stores for the file's text. */
  function StoredEntry(text: string): Entry {
    Entry(text, [1.0, 1.0, 1.0], Metadata(Some(SampleKey), Some(0)), SampleKey + "#0")
  }

  /** What retrieval returns from a collection holding only that record. */
  function RetrievedContext(text: string): QueryEngine.Context {
    QueryEngine.Context(Some(SampleKey + "#0"), text, Metadata(Some(SampleKey), Some(0)), Some(Number(0.0)), Some(1.0))
  }

  /** What the proofs below need of the sample: its words, no "Q" or "-", and a short length. */
  predicate SampleLike(text: string) {
    Words(text) == FirstLine + SecondLine && Lacks(text, 'Q') && Lacks(text, '-') && |text| <= 150
  }

  // ---------------------------------------------------------------------------
  // Facts about the sample text
  // ---------------------------------------------------------------------------

  /** Non-empty words of at most eleven characters, without whitespace, "Q" or "-". */
  predicate GoodWords(ws: seq<string>) {
    forall k :: 0 <= k < |ws| ==> ws[k] != [] && |ws[k]| <= 11 && NoSpace(ws[k]) && Lacks(ws[k], 'Q') && Lacks(ws[k], '-')
  }

  lemma {:induction false} Letters(w: string)
    requires 0 < |w| <= 11
    requires forall i :: 0 <= i < |w| ==>
      ('a' <= w[i] <= 'z') || ('A' <= w[i] <= 'P') || ('R' <= w[i] <= 'Z') || w[i] == '.'
    ensures w != [] && |w| <= 11 && NoSpace(w) && Lacks(w, 'Q') && Lacks(w, '-')
  {
  }

  lemma {:induction false} FirstLineWords()
    ensures GoodWords(FirstLine)
  {
    Letters("Josef");
    Letters("loves");
    Letters("building");
    Letters("scalable");
    Letters("businesses.");
  }

  lemma {:induction false} SecondLineWords()
    ensures GoodWords(SecondLine)
  {
    Letters("Automation");
    Letters("unlocks");
    Letters("leverage");
    Letters("for");
    Letters("sales");
    Letters("and");
    Letters("brand.");
  }

  function Lines(a: seq<string>, b: seq<string>): string {
    Join(" ", a) + "\n" + Join(" ", b)
  }

  /** The words of two lines of proper words are the words of both. */
  lemma {:induction false} LinesWords(a: seq<string>, b: seq<string>)
    requires GoodWords(a) && GoodWords(b)
    ensures Words(Lines(a, b)) == a + b
  {
    var x, y := Join(" ", a), Join(" ", b);
    assert Lines(a, b) == x + ['\n'] + y;
    WordsSplitAt(x, '\n', y);
    assert ProperWords(a) && ProperWords(b);
    WordsOfJoin(a);
    WordsOfJoin(b);
  }

  lemma {:induction false} LinesLack(a: seq<string>, b: seq<string>, ch: char)
    requires GoodWords(a) && GoodWords(b) && (ch == 'Q' || ch == '-')
    ensures Lacks(Lines(a, b), ch)
  {
    JoinLacks(" ", a, ch);
    JoinLacks(" ", b, ch);
  }

  lemma {:induction false} LinesLength(a: seq<string>, b: seq<string>)
    requires a != [] && b != []
    ensures |Lines(a, b)| == JoinedLength(" ", a) + 1 + JoinedLength(" ", b)
  {
    JoinLength(" ", a);
    JoinLength(" ", b);
  }

  /** The test's text has the properties the proofs use. */
  lemma {:induction false} SampleFacts()
    ensures SampleLike(SampleText)
  {
    FirstLineWords();
    SecondLineWords();
    SampleShort();
    LinesLike(FirstLine, SecondLine);
  }

  /** Two lines of good words, short enough, make a text like the sample. */
  lemma {:induction false} LinesLike(a: seq<string>, b: seq<string>)
    requires GoodWords(a) && GoodWords(b) && a != [] && b != []
    requires JoinedLength(" ", a) + 1 + JoinedLength(" ", b) <= 150
    ensures Words(Lines(a, b)) == a + b
    ensures Lacks(Lines(a, b), 'Q') && Lacks(Lines(a, b), '-') && |Lines(a, b)| <= 150
  {
    LinesWords(a, b);
    LinesLack(a, b, 'Q');
    LinesLack(a, b, '-');
    LinesLength(a, b);
  }

  lemma {:induction false} SampleShort()
    ensures JoinedLength(" ", FirstLine) + 1 + JoinedLength(" ", SecondLine) <= 150
  {
    FirstLineWords();
    SecondLineWords();
    JoinedBound(FirstLine);
    JoinedBound(SecondLine);
  }

  /** Words of at most eleven characters, joined by single spaces, take at most twelve characters each. */
  lemma {:induction false} JoinedBound(ws: seq<string>)
    requires ws != [] && forall k :: 0 <= k < |ws| ==> |ws[k]| <= 11
    ensures JoinedLength(" ", ws) + 1 <= 12 * |ws|
    decreases |ws|
  {
    if |ws| > 1 {
      JoinedBound(ws[1..]);
    }
  }

  // ---------------------------------------------------------------------------
  // Ingestion
  // ---------------------------------------------------------------------------

  lemma {:induction false} SampleIsCandidate()
    ensures Ingest.IsCandidate(Ingest.Listed(SamplePath, true), Ingest.LowerSet(Config.SupportedSuffixes))
    ensures Lower(Ingest.Suffix(Ingest.Name(SamplePath))) == ".txt"
  {
    assert Ingest.Name(SamplePath) == "sample" + "." + "txt";
    Ingest.SuffixOfStem("sample", "txt");
    assert "." + "txt" == ".txt";
    assert Lower(".txt") == ".txt";
    assert ".txt" in Config.SupportedSuffixes;
  }

  /** The only file found below the source directory is the sample. */
  lemma {:induction false} SampleSourceFiles(text: string)
    ensures Ingest.SourceFiles(Files(text), [SourceDir], Ingest.LowerSet(Config.SupportedSuffixes)) == [(SamplePath, SourceDir)]
  {
    SampleIsCandidate();
    var listing := [Ingest.Listed(SamplePath, true)];
    assert listing[..0] == [];
    assert [SourceDir][..0] == [];
  }

  /** The sample's key is its base directory's name and its file name. */
  lemma {:induction false} SampleKeyFacts()
    ensures Ingest.SourceKey(SamplePath, SourceDir) == Ok(SampleKey)
    ensures EndsWith(SampleKey, "sample.txt")
  {
    Ingest.KeyOfDirectChild(SourceDir, "sample.txt");
    assert Ingest.Name(SourceDir) + "/" + "sample.txt" == SampleKey;
  }

  /** A text with words is not blank. */
  lemma {:induction false} NotBlank(text: string)
    requires Words(text) != []
    ensures Strip(text) != ""
  {
    WordsOfLStrip(text);
    WordsOfRStrip(LStrip(text));
  }

  /** A readable, non-blank text kept whole by the splitter is stored as one chunk under its key. */
  lemma {:induction false} PlanOfWholeText(path: Ingest.Path, base: Ingest.Path, content: Ingest.FileContent, split: string -> seq<string>,
      texts: set<string>, text: string, key: string)
    requires Ingest.ExtractText(path, content, texts) == Ok(text)
    requires Strip(text) != "" && split(text) == [text]
    requires Ingest.SourceKey(path, base) == Ok(key)
    ensures Ingest.PlanFor(path, base, content, split, texts) == Ingest.Store(key, [text])
  {
  }

  /** The sample file reads as its text. */
  lemma {:induction false} SampleExtract(text: string)
    ensures Ingest.ExtractText(SamplePath, Files(text).Content(SamplePath), Ingest.LowerSet(Config.TextSuffixes)) == Ok(text)
  {
    SampleIsCandidate();
    assert ".txt" in Config.TextSuffixes;
  }

  /** With a splitter that keeps the text whole, the sample is stored as one chunk under its key. */
  lemma {:induction false} SamplePlan(text: string, split: string -> seq<string>)
    requires Words(text) != [] && split(text) == [text]
    ensures Ingest.PlanFor(SamplePath, SourceDir, Files(text).Content(SamplePath), split, Ingest.LowerSet(Config.TextSuffixes))
      == Ingest.Store(SampleKey, [text])
  {
    SampleExtract(text);
    NotBlank(text);
    SampleKeyFacts();
    PlanOfWholeText(SamplePath, SourceDir, Files(text).Content(SamplePath), split, Ingest.LowerSet(Config.TextSuffixes), text, SampleKey);
  }

  /** A run over one file whose plan stores one chunk counts one file and one chunk and stores its record. */
  lemma {:induction false} RunOfOne(plans: seq<Ingest.Plan>, key: string, text: string)
    requires plans == [Ingest.Store(key, [text])]
    ensures Ingest.FilesStored(plans) == 1 && Ingest.ChunksStored(plans) == 1
    ensures Ingest.AfterRun([], plans, Embed) == [Entry(text, [1.0, 1.0, 1.0], Metadata(Some(key), Some(0)), key + "#0")]
  {
    assert plans[..0] == [];
    var recs := Ingest.Records(key, [text], Ingest.EmbedChunks([text], Embed));
    assert Ingest.AfterRun([], plans, Embed) == Without([], key) + recs;
    assert |recs| == 1;
    assert recs[0].id == key + "#0" by {
      assert NatToString(0) == "0";
      Associative(key, "#", "0");
    }
  }

  lemma {:induction false} SampleRun(text: string, split: string -> seq<string>)
    requires Words(text) != [] && split(text) == [text]
    ensures var plans := Ingest.Plans(Files(text), [(SamplePath, SourceDir)], split, Ingest.LowerSet(Config.TextSuffixes));
      && Ingest.FilesStored(plans) == 1 && Ingest.ChunksStored(plans) == 1
      && Ingest.AfterRun([], plans, Embed) == [StoredEntry(text)]
  {
    SamplePlan(text, split);
    var plans := Ingest.Plans(Files(text), [(SamplePath, SourceDir)], split, Ingest.LowerSet(Config.TextSuffixes));
    assert plans == [Ingest.Store(SampleKey, [text])];
    RunOfOne(plans, SampleKey, text);
  }

  // ---------------------------------------------------------------------------
  // Answering
  // ---------------------------------------------------------------------------

  /** A collection holding one record yields that record as the one context, at distance 0 and score 1. */
  lemma {:induction false} RetrieveOne(c: FakeCollection, e: Entry)
    requires c.entries == [e]
    ensures QueryEngine.Retrieved(Ok(c.Query(6))) == [QueryEngine.Context(Some(e.id), e.document, e.metadata, Some(Number(0.0)), Some(1.0))]
  {
    var q := c.Query(6);
    QueryEngine.RetrievedRecords(q);
    var r := QueryEngine.Retrieved(Ok(q));
    assert |r| == 1;
    assert r[0].distance == Some(Number(0.0));
  }

  const BlockHead: string := "[Source 1]"

  /** One retrieved context renders as the block "[Source 1]", a newline and its stripped text. */
  lemma {:induction false} OneBlock(c: QueryEngine.Context)
    ensures QueryEngine.PromptContext([c]) == BlockHead + "\n" + Strip(c.text)
  {
    var b := QueryEngine.Blocks([c]);
    assert b == [QueryEngine.Block(1, c.text)];
    assert Join(QueryEngine.BlockSeparator, b) == b[0];
    FirstBlock(c.text);
  }

  lemma {:induction false} FirstBlock(text: string)
    ensures QueryEngine.Block(1, text) == BlockHead + "\n" + Strip(text)
  {
    assert NatToString(1) == "1";
    assert "[Source " + "1" + "]\n" == BlockHead + "\n";
  }

  /** A newline separates the words on its left from those on its right. */
  lemma {:induction false} LineWords(a: string, t: string)
    ensures Words(a + "\n" + t) == Words(a) + Words(t)
  {
    assert a + "\n" + t == a + ['\n'] + t;
    WordsSplitAt(a, '\n', t);
  }

  lemma {:induction false} Visible(w: string)
    requires forall i :: 0 <= i < |w| ==> '!' <= w[i] <= '~'
    ensures NoSpace(w)
  {
  }

  lemma {:induction false} HeadWords()
    ensures Words(BlockHead) == ["[Source", "1]"]
  {
    var ws := ["[Source", "1]"];
    Visible("[Source");
    Visible("1]");
    assert ProperWords(ws);
    assert Join(" ", ws) == "[Source" + " " + "1]";
    assert BlockHead == Join(" ", ws);
    WordsOfJoin(ws);
  }

  /** The words of a first block: those of its heading, then those of the text. */
  lemma {:induction false} BlockWords(text: string)
    ensures Words(BlockHead + "\n" + Strip(text)) == ["[Source", "1]"] + Words(text)
  {
    WordsOfLStrip(text);
    WordsOfRStrip(LStrip(text));
    LineWords(BlockHead, Strip(text));
    HeadWords();
  }

  lemma {:induction false} LacksConcat(a: string, b: string, ch: char)
    requires Lacks(a, ch) && Lacks(b, ch)
    ensures Lacks(a + b, ch)
  {
  }

  lemma {:induction false} HeadLacks(ch: char)
    requires ch == 'Q' || ch == '-'
    ensures Lacks(BlockHead + "\n", ch)
  {
  }

  /** A first block keeps a character out of the rendering when its text does (for the two the parser reacts to). */
  lemma {:induction false} BlockLacks(text: string, ch: char)
    requires Lacks(text, ch) && (ch == 'Q' || ch == '-')
    ensures Lacks(BlockHead + "\n" + Strip(text), ch)
  {
    Config.StripLacks(text, ch);
    HeadLacks(ch);
    LacksConcat(BlockHead + "\n", Strip(text), ch);
  }

  /** The sample's block: its words, no "Q" or "-", and short enough to be one snippet. */
  lemma {:induction false} SampleBlockFacts(text: string)
    requires SampleLike(text)
    ensures var x := BlockHead + "\n" + Strip(text);
      && Words(x) == ["[Source", "1]"] + FirstLine + SecondLine
      && Lacks(x, 'Q') && Lacks(x, '-') && |x| <= Llm.SnippetChars
  {
    var x := BlockHead + "\n" + Strip(text);
    assert Words(x) == ["[Source", "1]"] + FirstLine + SecondLine by {
      BlockWords(text);
    }
    assert Lacks(x, 'Q') by {
      BlockLacks(text, 'Q');
    }
    assert Lacks(x, '-') by {
      BlockLacks(text, '-');
    }
    assert |x| <= Llm.SnippetChars by {
      assert |Strip(text)| <= 150;
    }
  }

  /** A prompt whose context is one short block free of "Q" and "-" has that block, collapsed, as its only highlight. */
  lemma {:induction false} OneHighlight(question: string, c: QueryEngine.Context)
    requires var x := QueryEngine.PromptContext([c]);
      Lacks(x, 'Q') && Lacks(x, '-') && |x| <= Llm.SnippetChars && Words(x) != []
    ensures Llm.Highlights(QueryEngine.BuildUserPrompt(question, [c])) == [Collapse(QueryEngine.PromptContext([c]))]
  {
    var x := QueryEngine.PromptContext([c]);
    assert Llm.ContextBody(QueryEngine.BuildUserPrompt(question, [c])) == Some("\n" + x + "\n\n") by {
      LacksPart(x, "Question:", 0);
      QueryEngine.PromptRoundTrip(question, [c]);
    }
    PaddedBlockSnippets(x);
  }

  /** The padded context body of one short block free of "-" yields that block, collapsed, as its only snippet. */
  lemma {:induction false} PaddedBlockSnippets(x: string)
    requires Lacks(x, '-') && |x| <= Llm.SnippetChars && Words(x) != []
    ensures Llm.Snippets(Split("\n" + x + "\n\n", "\n---")) == [Collapse(x)]
  {
    var body := "\n" + x + "\n\n";
    QueryEngine.UnsplitBody(x);
    assert Collapse(Strip(body)) == Collapse(x) by {
      CollapseOfStrip(body);
      QueryEngine.PaddedWords(x);
    }
    assert |Collapse(x)| <= Llm.SnippetChars by {
      CollapseShorter(x);
    }
    assert Collapse(x) != "" by {
      WordsProper(x);
      JoinNonEmpty(Words(x));
    }
    SingleSnippet(body, Collapse(x));
  }

  /** A single chunk whose normalised text is short and non-empty is its own only snippet. */
  lemma {:induction false} SingleSnippet(body: string, y: string)
    requires Collapse(Strip(body)) == y && y != "" && |y| <= Llm.SnippetChars
    ensures Llm.Snippets([body]) == [y]
  {
    assert [body][..0] == [];
    assert Llm.Snippets([body]) == Llm.Snippet(body);
  }

  /** A word among a text's words survives collapsing. */
  lemma {:induction false} CollapseKeepsWord(x: string, k: nat)
    requires k < |Words(x)|
    ensures Contains(Collapse(x), Words(x)[k])
  {
    JoinContains(" ", Words(x), k);
  }

  /** The offline answer to a prompt contains whatever its one highlight contains. */
  lemma {:induction false} OfflineQuotes(prompt: string, h: string, w: string)
    requires Llm.Highlights(prompt) == [h] && Contains(h, w)
    ensures Contains(Join("\n", Llm.OfflineParts(QueryEngine.Messages(prompt))), w)
  {
    var parts := Llm.OfflineParts(QueryEngine.Messages(prompt));
    var line := Llm.Bullet + h;
    HighlightLineAt(prompt, h);
    assert Contains(line, w) by {
      ContainsExtend(h, w, Llm.Bullet, "");
      assert Llm.Bullet + h + "" == line;
    }
    JoinIncludes("\n", parts, |parts| - 2, w);
  }

  /** A joined text contains what one of its parts contains. */
  lemma {:induction false} JoinIncludes(sep: string, parts: seq<string>, k: nat, w: string)
    requires k < |parts| && Contains(parts[k], w)
    ensures Contains(Join(sep, parts), w)
  {
    JoinContains(sep, parts, k);
    ContainsTransitive(Join(sep, parts), parts[k], w);
  }

  /** With one highlight, the offline answer's next-to-last line is that highlight's bullet. */
  lemma {:induction false} HighlightLineAt(prompt: string, h: string)
    requires Llm.Highlights(prompt) == [h]
    ensures var parts := Llm.OfflineParts(QueryEngine.Messages(prompt));
      |parts| >= 2 && parts[|parts| - 2] == Llm.Bullet + h
  {
    QueryEngine.MessagesContent(prompt);
    HighlightLineOf(QueryEngine.Messages(prompt), h);
  }

  /** The same, for any conversation whose last user message has one highlight. */
  lemma {:induction false} HighlightLineOf(ms: seq<Llm.Message>, h: string)
    requires Llm.Highlights(Llm.LastContent(ms, "user")) == [h]
    ensures var parts := Llm.OfflineParts(ms);
      |parts| >= 2 && parts[|parts| - 2] == Llm.Bullet + h
  {
    var user := Llm.LastContent(ms, "user");
    var sl := Llm.SystemLines(Llm.LastContent(ms, "system"));
    var ql := Llm.QuestionLines(Llm.Question(user));
    var hl := Llm.HighlightLines(Llm.Highlights(user));
    OneHighlightLines(h);
    NextToLast(Llm.OfflineParts(ms), [Llm.Header] + sl + ql, hl, Llm.Guidance);
  }

  lemma {:induction false} OneHighlightLines(h: string)
    ensures Llm.HighlightLines([h]) == [Llm.HighlightsTitle, Llm.Bullet + h]
  {
    assert Prefix([h], Llm.MaxHighlights) == [h];
  }

  lemma {:induction false} NextToLast<T>(s: seq<T>, pre: seq<T>, mid: seq<T>, g: T)
    requires s == pre + mid + [g] && |mid| == 2
    ensures |s| >= 2 && s[|s| - 2] == mid[1]
  {
  }

  /** An infix of an infix is an infix. */
  lemma {:induction false} ContainsTransitive(s: string, t: string, p: string)
    requires Contains(s, t) && Contains(t, p)
    ensures Contains(s, p)
  {
    var i := Find(s, t).value;
    assert s == s[..i] + t + s[i + |t|..];
    ContainsExtend(t, p, s[..i], s[i + |t|..]);
  }

  /** Offline, the answer to the asked question over the sample's context quotes "Automation". */
  lemma {:induction false} SampleAnswerQuotes(text: string)
    requires SampleLike(text)
    ensures Contains(Join("\n", Llm.OfflineParts(QueryEngine.Messages(QueryEngine.BuildUserPrompt(AskedQuestion, [RetrievedContext(text)])))), "Automation")
  {
    var c := RetrievedContext(text);
    var x := QueryEngine.PromptContext([c]);
    OneBlock(c);
    SampleBlockFacts(text);
    assert Words(x)[7] == "Automation";
    OneHighlight(AskedQuestion, c);
    CollapseKeepsWord(x, 7);
    OfflineQuotes(QueryEngine.BuildUserPrompt(AskedQuestion, [c]), Collapse(x), "Automation");
  }

  /** The answer keeps what its raw answer contains. */
  lemma {:induction false} AnswerKeeps(raw: string, summaries: seq<QueryEngine.Summary>, w: string)
    requires Contains(raw, w)
    ensures Contains(QueryEngine.WithSources(raw, summaries), w)
  {
    var a := QueryEngine.WithSources(raw, summaries);
    QueryEngine.AnswerExtendsRaw(raw, summaries);
    assert a == "" + raw + a[|raw|..];
    ContainsExtend(raw, w, "", a[|raw|..]);
  }

  /** The sample's context is summarised under the sample's key. */
  lemma {:induction false} SampleSources(text: string)
    ensures var r := QueryEngine.Summaries([RetrievedContext(text)], QueryEngine.PreviewChars);
      r != [] && EndsWith(r[0].source, "sample.txt")
  {
    assert [RetrievedContext(text)][..0] == [];
    SampleKeyFacts();
  }

  /** The settings the test's environment yields. */
  lemma {:induction false} TestSettings(parseFloat: string -> Option<real>)
    ensures var s := Config.Load(TestEnv, parseFloat);
      s.llmMode == "offline" && s.embeddingsPath == "/tmp/embeddings" && s.topK == 6
      && s.supportedSuffixes == Config.SupportedSuffixes && s.textSuffixes == Config.TextSuffixes
  {
    TestEnvFacts();
    LoadOf(TestEnv, parseFloat);
  }

  lemma {:induction false} TestEnvFacts()
    ensures "TOP_K" !in TestEnv
    ensures "LLM_MODE" in TestEnv && TestEnv["LLM_MODE"] == "offline"
    ensures "EMBEDDINGS_PATH" in TestEnv && TestEnv["EMBEDDINGS_PATH"] == "/tmp/embeddings"
  {
  }

  /** The fields the test relies on come from its environment variables. */
  lemma {:induction false} LoadOf(env: Config.Env, parseFloat: string -> Option<real>)
    requires "TOP_K" !in env
    requires "LLM_MODE" in env && env["LLM_MODE"] == "offline"
    requires "EMBEDDINGS_PATH" in env && env["EMBEDDINGS_PATH"] == "/tmp/embeddings"
    ensures var s := Config.Load(env, parseFloat);
      s.llmMode == "offline" && s.embeddingsPath == "/tmp/embeddings" && s.topK == 6
  {
  }

  /** An "offline" mode setting selects the rule-based generator. */
  lemma {:induction false} OfflineSelected(settings: Config.Settings)
    requires settings.llmMode == "offline"
    ensures Llm.SelectChatLlm(settings, true) == Ok(Llm.Offline)
  {
    PlainWordNormal(settings.llmMode);
    assert Llm.Mode(settings.llmMode) == "offline";
  }

  // ---------------------------------------------------------------------------
  // The test
  // ---------------------------------------------------------------------------

  /**
   * `test_ingest_and_answer` for a sample file holding `text`: ingest it with
   * the test's settings into a fresh registry, then answer through a second
   * client on the same path; `split` is the text splitter, assumed to keep
   * the short text whole.
   */
  method IngestAndAnswerText(text: string, split: string -> seq<string>) returns (stats: Ingest.Stats, response: QueryEngine.Answer)
    requires SampleLike(text) && split(text) == [text]
    ensures stats.files == 1 && stats.chunks > 0
    ensures Contains(response.answer, "Automation")
    ensures response.sources != [] && EndsWith(response.sources[0].source, "sample.txt")
    ensures response.mode == "offline"
  {
    var settings := Config.Load(TestEnv, _ => None);
    TestSettings(_ => None);
    var registry := new Registry();
    stats := IngestSample(text, split, settings, registry);
    response := AnswerSample(text, settings, registry);
  }

  /** The ingestion half of the test: `ingest_all` over the temporary source directory, into an empty store. */
  method IngestSample(text: string, split: string -> seq<string>, settings: Config.Settings, registry: Registry)
    returns (stats: Ingest.Stats)
    requires SampleLike(text) && split(text) == [text]
    requires settings.supportedSuffixes == Config.SupportedSuffixes && settings.textSuffixes == Config.TextSuffixes
    requires registry.collections == map[]
    modifies registry
    ensures registry.Valid()
    ensures (settings.embeddingsPath, "josef_knowledge") in registry.collections
    ensures registry.collections[(settings.embeddingsPath, "josef_knowledge")].entries == [StoredEntry(text)]
    ensures stats.files == 1 && stats.chunks == 1
  {
    var client := new FakeClient(settings.embeddingsPath, registry);
    var stored;
    SampleWalksBelow(text);
    stats, stored := Ingest.IngestAll([SourceDir], [], settings.supportedSuffixes, settings.textSuffixes,
      client, Files(text), split, Embed);
    SampleSourceFiles(text);
    SampleRun(text, split);
  }

  /** The answering half of the test: a fresh client onto the same store, the offline generator, the test's question. */
  method AnswerSample(text: string, settings: Config.Settings, registry: Registry) returns (response: QueryEngine.Answer)
    requires SampleLike(text) && settings.llmMode == "offline" && settings.topK == 6
    requires registry.Valid() && (settings.embeddingsPath, "josef_knowledge") in registry.collections
    requires registry.collections[(settings.embeddingsPath, "josef_knowledge")].entries == [StoredEntry(text)]
    modifies registry
    ensures Contains(response.answer, "Automation")
    ensures response.sources != [] && EndsWith(response.sources[0].source, "sample.txt")
    ensures response.mode == "offline"
  {
    var client := new FakeClient(settings.embeddingsPath, registry);
    var collection := client.GetOrCreateCollection("josef_knowledge");
    var llm := Llm.SelectChatLlm(settings, true);
    OfflineSelected(settings);
    response := QueryEngine.AnswerWithContext(AskedQuestion, None, None, None, settings, collection, llm.value, "");
    RetrieveOne(collection, StoredEntry(text));
    SampleAnswer(text, response);
  }

  /** What the test asserts of the answer, given how `answer_with_context` builds it from the one retrieved context. */
  lemma {:induction false} SampleAnswer(text: string, r: QueryEngine.Answer)
    requires SampleLike(text)
    requires r.contexts == [RetrievedContext(text)]
    requires r.prompt == QueryEngine.BuildUserPrompt(AskedQuestion, r.contexts)
    requires r.rawAnswer == Join("\n", Llm.OfflineParts(QueryEngine.Messages(r.prompt)))
    requires r.sources == QueryEngine.Summaries(r.contexts, QueryEngine.PreviewChars)
    requires r.answer == QueryEngine.WithSources(r.rawAnswer, r.sources)
    ensures Contains(r.answer, "Automation")
    ensures r.sources != [] && EndsWith(r.sources[0].source, "sample.txt")
  {
    SampleAnswerQuotes(text);
    AnswerKeeps(r.rawAnswer, r.sources, "Automation");
    SampleSources(text);
  }

  /** `test_ingest_and_answer` with the test's own two lines. */
  method IngestAndAnswer(split: string -> seq<string>) returns (stats: Ingest.Stats, response: QueryEngine.Answer)
    requires split(SampleText) == [SampleText]
    ensures stats.files == 1 && stats.chunks > 0
    ensures Contains(response.answer, "Automation")
    ensures response.sources != [] && EndsWith(response.sources[0].source, "sample.txt")
    ensures response.mode == "offline"
  {
    SampleFacts();
    stats, response := IngestAndAnswerText(SampleText, split);
  }
}
