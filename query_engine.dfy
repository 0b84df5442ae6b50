/**
 * Answer composition of app/query_engine.py: turning the index's parallel
 * result lists into context records, rendering them into the user prompt,
 * summarising their sources and appending a sources footer to the answer.
 * The sentence encoder is not modelled; the index is the in-memory
 * collection, and a remote generator's reply is a parameter.
 */
module QueryEngine {
  import opened Wrappers
  import opened PyStr
  import opened Index
  import Llm
  import Config

  const SystemPrompt: string := "You are Josef's elite business coach. "
    + "Use insights from context only, focused on scaling, sales, psychology, negotiation, brand and automation."

  /** The text rendered in place of an empty context list, written as its words joined by single spaces. */
  const NoContextWords: seq<string> := ["No", "relevant", "context", "was", "retrieved", "from", "the", "knowledge", "base."]
  const NoContext: string := Join(" ", NoContextWords)

  const BlockSeparator: string := "\n---\n"
  const PreviewChars: nat := 260
  const FooterSources: nat := 5

  // ---------------------------------------------------------------------------
  // _distance_to_score
  // ---------------------------------------------------------------------------

  function MinReal(a: real, b: real): real {
    if a <= b then a else b
  }

  function MaxReal(a: real, b: real): real {
    if a >= b then a else b
  }

  /** `max(0.0, min(1.0, 1.0 - d))` for a numeric distance; no score for anything else. */
  function DistanceToScore(d: Value): (r: Option<real>)
    ensures d.NotNumber? <==> r.None?
    ensures d.Number? ==> 0.0 <= r.value <= 1.0
    ensures d.Number? && 0.0 <= d.x <= 1.0 ==> r.value == 1.0 - d.x
    ensures d.Number? && d.x < 0.0 ==> r.value == 1.0
    ensures d.Number? && d.x > 1.0 ==> r.value == 0.0
  {
    match d
    case Number(x) => Some(MaxReal(0.0, MinReal(1.0, 1.0 - x)))
    case NotNumber => None
  }

  /** A nearer record never scores lower. */
  lemma {:induction false} ScoreAntitone(d1: real, d2: real)
    requires d1 <= d2
    ensures DistanceToScore(Number(d1)).value >= DistanceToScore(Number(d2)).value
  {
  }

  // ---------------------------------------------------------------------------
  // retrieve_context
  // ---------------------------------------------------------------------------

  /**
   * One context record: `id` (None when the ids list is short), `text`,
   * `metadata` (`{}` when missing or None), and the `distance` and `score`
   * keys, None when absent.
   */
  datatype Context = Context(id: Option<string>, text: string, metadata: Metadata, distance: Option<Value>, score: Option<real>)

  /** `(res.get(key) or [[]])[0]`: the list for the first query, empty when the key is missing, None or an empty list. */
  function FirstList<T>(x: Option<seq<seq<T>>>): seq<T> {
    if x.None? || x.value == [] then [] else x.value[0]
  }

  /** The record built for the document at position `k`. */
  function ContextAt(docs: seq<string>, metas: seq<Option<Metadata>>, ids: seq<string>, dists: seq<Option<Value>>, k: nat): Context
    requires k < |docs|
  {
    var distance := if k < |dists| then dists[k] else None;
    Context(
      if k < |ids| then Some(ids[k]) else None,
      docs[k],
      if k < |metas| then metas[k].GetOr(NoMetadata) else NoMetadata,
      distance,
      if distance.Some? then DistanceToScore(distance.value) else None)
  }

  /** The contexts `retrieve_context` returns for a query outcome; a raising query gives none. */
  function Retrieved(res: Result<QueryResult>): (r: seq<Context>)
    ensures res.Raised? ==> r == []
    ensures res.Ok? ==> |r| == |FirstList(res.value.documents)|
  {
    match res
    case Raised => []
    case Ok(q) =>
      var docs, metas, ids, dists := FirstList(q.documents), FirstList(q.metadatas), FirstList(q.ids), FirstList(q.distances);
      seq(|docs|, k requires 0 <= k < |docs| => ContextAt(docs, metas, ids, dists, k))
  }

  /**
   * One record per document, in order, carrying that document's text; the
   * metadata and id lists are read position by position with `{}` and None
   * where they are short; a record has a score only if it has a numeric
   * distance, and the score then lies in [0, 1].
   */
  lemma {:induction false} RetrievedRecords(q: QueryResult)
    ensures var r := Retrieved(Ok(q));
      var docs, metas, ids := FirstList(q.documents), FirstList(q.metadatas), FirstList(q.ids);
      && |r| == |docs|
      && forall k :: 0 <= k < |r| ==>
        && r[k].text == docs[k]
        && r[k].metadata == (if k < |metas| then metas[k].GetOr(NoMetadata) else NoMetadata)
        && r[k].id == (if k < |ids| then Some(ids[k]) else None)
        && (r[k].score.Some? <==> r[k].distance.Some? && r[k].distance.value.Number?)
        && (r[k].score.Some? ==> 0.0 <= r[k].score.value <= 1.0)
  {
  }

  /** `retrieve_context` after the query: the loop that builds one record per document. */
  method RetrieveContext(res: Result<QueryResult>) returns (contexts: seq<Context>)
    ensures contexts == Retrieved(res)
  {
    if res.Raised? {
      return [];
    }
    var q := res.value;
    var docs, metas, ids, dists := FirstList(q.documents), FirstList(q.metadatas), FirstList(q.ids), FirstList(q.distances);
    contexts := [];
    var idx := 0;
    while idx < |docs|
      invariant 0 <= idx <= |docs|
      invariant |contexts| == idx
      invariant forall k :: 0 <= k < idx ==> contexts[k] == ContextAt(docs, metas, ids, dists, k)
    {
      var metadata := if idx < |metas| then metas[idx] else Some(NoMetadata);
      var distance := if idx < |dists| then dists[idx] else None;
      var id := if idx < |ids| then Some(ids[idx]) else None;
      var score: Option<real> := None;
      if distance.Some? {
        score := DistanceToScore(distance.value);
      }
      contexts := contexts + [Context(id, docs[idx], metadata.GetOr(NoMetadata), distance, score)];
      idx := idx + 1;
    }
  }

  // ---------------------------------------------------------------------------
  // _format_prompt_context and build_user_prompt
  // ---------------------------------------------------------------------------

  /** `f"[Source {i}]\n{text.strip()}"` */
  function Block(i: nat, text: string): string {
    "[Source " + NatToString(i) + "]\n" + Strip(text)
  }

  /** The blocks of a context list, numbered from 1. */
  function Blocks(contexts: seq<Context>): (r: seq<string>)
    ensures |r| == |contexts|
    ensures forall k :: 0 <= k < |r| ==> r[k] == Block(k + 1, contexts[k].text)
  {
    seq(|contexts|, k requires 0 <= k < |contexts| => Block(k + 1, contexts[k].text))
  }

  function PromptContext(contexts: seq<Context>): string {
    if contexts == [] then NoContext else Join(BlockSeparator, Blocks(contexts))
  }

  /** `_format_prompt_context` */
  method FormatPromptContext(contexts: seq<Context>) returns (s: string)
    ensures s == PromptContext(contexts)
  {
    if contexts == [] {
      return NoContext;
    }
    var blocks: seq<string> := [];
    var idx := 0;
    while idx < |contexts|
      invariant 0 <= idx <= |contexts|
      invariant |blocks| == idx
      invariant blocks == Blocks(contexts[..idx])
    {
      BlocksSnoc(contexts, idx);
      blocks := blocks + [Block(idx + 1, contexts[idx].text)];
      idx := idx + 1;
    }
    assert contexts[..idx] == contexts;
    s := Join(BlockSeparator, blocks);
  }

  /** One more context adds its block at the end. */
  lemma {:induction false} BlocksSnoc(contexts: seq<Context>, i: nat)
    requires i < |contexts|
    ensures Blocks(contexts[..i + 1]) == Blocks(contexts[..i]) + [Block(i + 1, contexts[i].text)]
  {
    var a, b := Blocks(contexts[..i + 1]), Blocks(contexts[..i]) + [Block(i + 1, contexts[i].text)];
    forall k | 0 <= k < |a|
      ensures a[k] == b[k]
    {
      assert contexts[..i + 1][k] == contexts[k];
      if k < i {
        assert contexts[..i][k] == contexts[k];
      }
    }
  }

  /** Every context's stripped text appears in the rendered context, under its number. */
  lemma {:induction false} PromptContextHoldsBlocks(contexts: seq<Context>, k: nat)
    requires k < |contexts|
    ensures Contains(PromptContext(contexts), "[Source " + NatToString(k + 1) + "]\n" + Strip(contexts[k].text))
  {
    JoinContains(BlockSeparator, Blocks(contexts), k);
  }

  /** `build_user_prompt` */
  function BuildUserPrompt(question: string, contexts: seq<Context>): string {
    "Context:\n" + PromptContext(contexts) + "\n\nQuestion: " + question
  }

  /** `build_user_prompt`, rendering the context with `_format_prompt_context`. */
  method BuildPrompt(question: string, contexts: seq<Context>) returns (prompt: string)
    ensures prompt == BuildUserPrompt(question, contexts)
  {
    var ctx := FormatPromptContext(contexts);
    prompt := "Context:\n" + ctx + "\n\nQuestion: " + question;
  }

  /** The prompt is "Context:" followed by the context part, which ends in the "Question:" marker and the question. */
  lemma {:induction false} PromptShape(question: string, contexts: seq<Context>)
    ensures BuildUserPrompt(question, contexts)
      == "Context:" + (("\n" + PromptContext(contexts) + "\n\n") + ("Question:" + (" " + question)))
  {
    PromptPieces();
    RegroupPrompt("Context:", "\n", PromptContext(contexts), "\n\n", "Question:", " ", question);
  }

  lemma {:induction false} PromptPieces()
    ensures "Context:\n" == "Context:" + "\n"
    ensures "\n\nQuestion: " == "\n\n" + "Question:" + " "
  {
  }

  lemma {:induction false} RegroupPrompt<T>(c: seq<T>, n: seq<T>, x: seq<T>, nn: seq<T>, m: seq<T>, sp: seq<T>, q: seq<T>)
    ensures (c + n) + x + (nn + m + sp) + q == c + ((n + x + nn) + (m + (sp + q)))
  {
    calc {
      (c + n) + x + (nn + m + sp) + q;
      { Associative(c + n + x, nn + m, sp); }
      (c + n + x + (nn + m) + sp) + q;
      { Associative(c + n + x, nn, m); }
      c + n + x + nn + m + sp + q;
      { Associative(c + n + x + nn + m, sp, q); }
      c + n + x + nn + m + (sp + q);
      { Associative(c + n + x + nn, m, sp + q); }
      c + n + x + nn + (m + (sp + q));
      { Associative(c, n, x); Associative(c, n + x, nn); }
      c + (n + x + nn) + (m + (sp + q));
      { Associative(c, n + x + nn, m + (sp + q)); }
      c + ((n + x + nn) + (m + (sp + q)));
    }
  }

  /**
   * The offline generator recovers what `build_user_prompt` put in: its
   * context body is the rendered context (with the surrounding newlines) and
   * its question is the asked question, whitespace-normalised, provided the
   * rendered context does not itself contain "Question:".
   */
  lemma {:induction false} PromptRoundTrip(question: string, contexts: seq<Context>)
    requires !Contains(PromptContext(contexts), "Question:")
    ensures Llm.ContextBody(BuildUserPrompt(question, contexts)) == Some("\n" + PromptContext(contexts) + "\n\n")
    ensures Llm.Question(BuildUserPrompt(question, contexts)) == Collapse(question)
  {
    PromptShape(question, contexts);
    ParsePrompt(PromptContext(contexts), question);
  }

  /** The parse of a prompt with context text `ctx`. */
  lemma {:induction false} ParsePrompt(ctx: string, question: string)
    requires !Contains(ctx, "Question:")
    ensures var prompt := "Context:" + (("\n" + ctx + "\n\n") + ("Question:" + (" " + question)));
      && Llm.ContextBody(prompt) == Some("\n" + ctx + "\n\n")
      && Llm.Question(prompt) == Collapse(question)
  {
    var a := "\n" + ctx + "\n\n";
    var b := "Question:" + (" " + question);
    var prompt := "Context:" + (a + b);
    AfterMarker("Context:", a + b);
    ContextLacksMarker(ctx);
    FindMarker(a, " " + question);
    SpacedQuestion(question);
  }

  /** Splitting at a marker the text starts with leaves the rest. */
  lemma {:induction false} AfterMarker(m: string, rest: string)
    ensures Contains(m + rest, m) && Llm.After(m + rest, m) == rest
  {
    assert (m + rest)[..|m|] == m;
    FindAtStart(m + rest, m);
  }

  lemma {:induction false} ContextLacksMarker(ctx: string)
    requires !Contains(ctx, "Question:")
    ensures !Contains("\n" + ctx + "\n\n", "Question:")
  {
    var m := "Question:";
    assert forall i :: 0 <= i < |"\n\n"| ==> Lacks(m, "\n\n"[i]);
    NotAcross(ctx, "\n\n", m);
    assert "\n" + ctx + "\n\n" == "\n" + (ctx + "\n\n");
    FindAfter("\n", ctx + "\n\n", m);
  }

  lemma {:induction false} FindMarker(a: string, rest: string)
    requires a != [] && a[|a| - 1] == '\n' && !Contains(a, "Question:")
    ensures var part := a + ("Question:" + rest);
      && Contains(part, "Question:")
      && Llm.Before(part, "Question:") == a
      && Llm.After(part, "Question:") == rest
  {
    var m := "Question:";
    var b := m + rest;
    assert Lacks(m, '\n');
    assert b[..|m|] == m;
    FirstAtBoundary(a, b, m);
    var part := a + b;
    assert part[..|a|] == a;
    assert part[|a| + |m|..] == rest;
  }

  lemma {:induction false} SpacedQuestion(question: string)
    ensures Collapse(Strip(" " + question)) == Collapse(question)
  {
    CollapseOfStrip(" " + question);
    WordsSkipSpace(" " + question);
    assert (" " + question)[1..] == question;
  }

  lemma {:induction false} NoContextFacts()
    ensures ProperWords(NoContextWords)
    ensures Lacks(NoContext, 'Q') && Lacks(NoContext, '-')
    ensures |NoContext| <= Llm.SnippetChars
  {
    NoContextWordsGood();
    assert Lacks(NoContext, 'Q') by {
      JoinLacks(" ", NoContextWords, 'Q');
    }
    assert Lacks(NoContext, '-') by {
      JoinLacks(" ", NoContextWords, '-');
    }
    assert |NoContext| <= Llm.SnippetChars by {
      JoinLength(" ", NoContextWords);
    }
  }

  lemma {:induction false} NoContextWordsGood()
    ensures ProperWords(NoContextWords)
    ensures forall k :: 0 <= k < |NoContextWords| ==> Lacks(NoContextWords[k], 'Q') && Lacks(NoContextWords[k], '-')
  {
    GoodWord("No");
    GoodWord("relevant");
    GoodWord("context");
    GoodWord("was");
    GoodWord("retrieved");
    GoodWord("from");
    GoodWord("the");
    GoodWord("knowledge");
    GoodWord("base.");
  }

  lemma {:induction false} GoodWord(w: string)
    requires |w| <= 9
    requires forall i :: 0 <= i < |w| ==> 'a' <= w[i] <= 'z' || w[i] == 'N' || w[i] == '.'
    ensures w != [] ==> NoSpace(w)
    ensures Lacks(w, 'Q') && Lacks(w, '-')
  {
  }

  /** With nothing retrieved, the offline generator shows exactly one highlight: the no-context text. */
  lemma {:induction false} EmptyContextHighlight(question: string)
    ensures Llm.Highlights(BuildUserPrompt(question, [])) == [NoContext]
  {
    NoContextFacts();
    LacksPart(NoContext, "Question:", 0);
    PromptRoundTrip(question, []);
    SingleHighlight(NoContextWords);
  }

  lemma {:induction false} MessagesContent(prompt: string)
    ensures Llm.LastContent(Messages(prompt), "user") == prompt
    ensures Llm.LastContent(Messages(prompt), "system") == SystemPrompt
  {
    var ms := Messages(prompt);
    assert ms[..1] == [Llm.Message(Some("system"), Some(SystemPrompt))];
    assert ms[..1][..0] == [];
  }

  /** The offline answer to a prompt with nothing retrieved has one bullet line, the no-context text. */
  lemma {:induction false} EmptyContextAnswer(question: string)
    ensures Llm.Tagged(Llm.BodyLines(Messages(BuildUserPrompt(question, []))), '-') == [Llm.Bullet + NoContext]
  {
    var prompt := BuildUserPrompt(question, []);
    MessagesContent(prompt);
    Llm.HighlightBullets(Messages(prompt));
    EmptyContextHighlight(question);
    assert Prefix([NoContext], Llm.MaxHighlights) == [NoContext];
  }

  /**
   * The offline answer to a built prompt repeats the asked question,
   * whitespace-normalised, on its "Question:" line, and keeps the system
   * prompt as its focus line.
   */
  lemma {:induction false} OfflineAnswerEchoes(question: string, contexts: seq<Context>)
    requires !Contains(PromptContext(contexts), "Question:")
    ensures var body := Llm.BodyLines(Messages(BuildUserPrompt(question, contexts)));
      && Llm.Tagged(body, 'Q') == (if Collapse(question) != "" then [Llm.QuestionPrefix + Collapse(question)] else [])
      && Llm.Tagged(body, 'S') == [Llm.SystemPrefix + Strip(SystemPrompt)]
  {
    var prompt := BuildUserPrompt(question, contexts);
    MessagesContent(prompt);
    PromptRoundTrip(question, contexts);
    Llm.QuestionLine(Messages(prompt));
    Llm.SystemFocusLine(Messages(prompt));
    assert SystemPrompt != "" by {
      assert |SystemPrompt| >= |"You are Josef's elite business coach. "|;
    }
  }

  /** A context body holding one single-spaced text without "-" yields that text as its only snippet. */
  lemma {:induction false} SingleHighlight(words: seq<string>)
    requires words != [] && ProperWords(words)
    requires Lacks(Join(" ", words), '-') && |Join(" ", words)| <= Llm.SnippetChars
    ensures Llm.Snippets(Split("\n" + Join(" ", words) + "\n\n", "\n---")) == [Join(" ", words)]
  {
    var x := Join(" ", words);
    var body := "\n" + x + "\n\n";
    UnsplitBody(x);
    assert [body][..0] == [];
    assert Llm.Snippets([body]) == Llm.Snippet(body);
    PaddedCollapse(words);
    JoinNonEmpty(words);
  }

  lemma {:induction false} UnsplitBody(x: string)
    requires Lacks(x, '-')
    ensures Split("\n" + x + "\n\n", "\n---") == ["\n" + x + "\n\n"]
  {
    var body := "\n" + x + "\n\n";
    assert Lacks(body, '-');
    LacksPart(body, "\n---", 1);
  }

  lemma {:induction false} PaddedCollapse(words: seq<string>)
    requires ProperWords(words)
    ensures Collapse(Strip("\n" + Join(" ", words) + "\n\n")) == Join(" ", words)
  {
    var x := Join(" ", words);
    CollapseOfStrip("\n" + x + "\n\n");
    PaddedWords(x);
    WordsOfJoin(words);
  }

  lemma {:induction false} PaddedWords(x: string)
    ensures Words("\n" + x + "\n\n") == Words(x)
  {
    Associative("\n", x, "\n\n");
    WordsAfterSpaces("\n", x + "\n\n");
    WordsBeforeSpaces(x, "\n\n");
  }

  // ---------------------------------------------------------------------------
  // _summarise_sources
  // ---------------------------------------------------------------------------

  /** One source summary: `source`, `chunk`, `score` and `preview`. */
  datatype Summary = Summary(source: string, chunk: Option<int>, score: Option<real>, preview: string)

  /**
   * The preview of a context text: stripped, newlines turned into spaces,
   * and cut to `n` characters, right-stripped, with "..." appended when longer.
   */
  function Preview(text: string, n: nat): (r: string)
    ensures Lacks(r, '\n')
    ensures |r| <= n + 3
    ensures |Strip(text)| <= n ==> r == ReplaceChar(Strip(text), '\n', ' ')
    ensures |Strip(text)| > n ==>
      (EndsWith(r, "...") && |r| - 3 <= n && StartsWith(ReplaceChar(Strip(text), '\n', ' '), r[..|r| - 3]))
  {
    var p := ReplaceChar(Strip(text), '\n', ' ');
    if |p| > n then
      var cut := RStrip(Prefix(p, n));
      CutFacts(p, n);
      cut + "..."
    else p
  }

  /**
   * A long preview is exactly `p[:n].rstrip()` followed by "...": its cut is a
   * prefix of the first `n` characters, what it drops of them is whitespace,
   * and it is empty or ends in a non-space.
   */
  lemma {:induction false} PreviewCut(text: string, n: nat)
    requires |Strip(text)| > n
    ensures var p, r := ReplaceChar(Strip(text), '\n', ' '), Preview(text, n);
      var cut := r[..|r| - 3];
      && |cut| <= n && cut == p[..|cut|]
      && AllSpace(p[|cut|..n])
      && (cut == [] || !IsSpace(cut[|cut| - 1]))
  {
    var p := ReplaceChar(Strip(text), '\n', ' ');
    var q := Prefix(p, n);
    assert q == p[..n];
    CutFacts(p, n);
    RStripDropsSpace(q);
    var cut := RStrip(q);
    assert q[|cut|..] == p[|cut|..n];
  }

  /** The cut preview keeps the opening of the text, stays within `n` and has no newline when the text has none. */
  lemma {:induction false} CutFacts(p: string, n: nat)
    requires |p| > n
    ensures var cut, r := RStrip(Prefix(p, n)), RStrip(Prefix(p, n)) + "...";
      && |cut| <= n && StartsWith(p, cut)
      && (Lacks(p, '\n') ==> Lacks(r, '\n'))
      && r[..|r| - 3] == cut && EndsWith(r, "...")
  {
    var q := Prefix(p, n);
    var cut := RStrip(q);
    assert StartsWith(p, cut) by {
      assert q == p[..n] && cut == q[..|cut|];
      assert p[..|cut|] == cut;
    }
    EllipsisFacts(cut, p);
  }

  lemma {:induction false} EllipsisFacts(cut: string, p: string)
    requires StartsWith(p, cut)
    ensures var r := cut + "...";
      && (Lacks(p, '\n') ==> Lacks(r, '\n'))
      && r[..|r| - 3] == cut && EndsWith(r, "...")
  {
    var r := cut + "...";
    if Lacks(p, '\n') {
      forall i | 0 <= i < |r| ensures r[i] != '\n' {
        if i < |cut| {
          assert r[i] == cut[i] == p[i];
        } else {
          assert r[i] == '.';
        }
      }
    }
    assert r[..|r| - 3] == cut;
    assert r[|r| - 3..] == "...";
  }

  /** A context names a source when its metadata has a non-empty `source`. */
  predicate Named(c: Context) {
    c.metadata.source.Some? && c.metadata.source.value != ""
  }

  function SummaryOf(c: Context, n: nat): Summary
    requires Named(c)
  {
    Summary(c.metadata.source.value, c.metadata.chunk, c.score, Preview(c.text, n))
  }

  /** The non-empty sources named by a list of contexts. */
  function Seen(contexts: seq<Context>): set<string> {
    if contexts == [] then {}
    else
      var c := contexts[|contexts| - 1];
      Seen(contexts[..|contexts| - 1]) + if Named(c) then {c.metadata.source.value} else {}
  }

  /** The summaries of a list of contexts: one per named source, from its first context. */
  function Summaries(contexts: seq<Context>, n: nat): seq<Summary> {
    if contexts == [] then []
    else
      var init, c := contexts[..|contexts| - 1], contexts[|contexts| - 1];
      if Named(c) && c.metadata.source.value !in Seen(init) then Summaries(init, n) + [SummaryOf(c, n)]
      else Summaries(init, n)
  }

  /** `_summarise_sources(contexts, preview_chars)` */
  method SummariseSources(contexts: seq<Context>, previewChars: nat) returns (summaries: seq<Summary>)
    ensures summaries == Summaries(contexts, previewChars)
  {
    summaries := [];
    var seen: set<string> := {};
    var j := 0;
    while j < |contexts|
      invariant 0 <= j <= |contexts|
      invariant seen == Seen(contexts[..j])
      invariant summaries == Summaries(contexts[..j], previewChars)
    {
      var ctx := contexts[j];
      assert contexts[..j + 1][..j] == contexts[..j];
      var sourceId := ctx.metadata.source;
      if sourceId.Some? && sourceId.value != "" && sourceId.value !in seen {
        seen := seen + {sourceId.value};
        summaries := summaries + [Summary(sourceId.value, ctx.metadata.chunk, ctx.score, Preview(ctx.text, previewChars))];
      }
      j := j + 1;
    }
    assert contexts[..j] == contexts;
  }

  /** Position `k` is the first context naming its source. */
  predicate FirstNaming(contexts: seq<Context>, k: nat)
    requires k < |contexts|
  {
    Named(contexts[k]) && contexts[k].metadata.source.value !in Seen(contexts[..k])
  }

  /** The positions of the first contexts of each source, in order. */
  function Origins(contexts: seq<Context>): (r: seq<nat>)
    ensures forall i :: 0 <= i < |r| ==> r[i] < |contexts|
  {
    if contexts == [] then []
    else
      var init, c := contexts[..|contexts| - 1], contexts[|contexts| - 1];
      if Named(c) && c.metadata.source.value !in Seen(init) then Origins(init) + [|contexts| - 1]
      else Origins(init)
  }

  lemma {:induction false} SeenMembers(contexts: seq<Context>, s: string)
    ensures s in Seen(contexts) <==> exists k :: 0 <= k < |contexts| && Named(contexts[k]) && contexts[k].metadata.source.value == s
    decreases |contexts|
  {
    if contexts != [] {
      var init := contexts[..|contexts| - 1];
      SeenMembers(init, s);
      if s in Seen(init) {
        var k :| 0 <= k < |init| && Named(init[k]) && init[k].metadata.source.value == s;
        assert contexts[k] == init[k];
      }
      if exists k :: 0 <= k < |contexts| && Named(contexts[k]) && contexts[k].metadata.source.value == s {
        var k :| 0 <= k < |contexts| && Named(contexts[k]) && contexts[k].metadata.source.value == s;
        if k < |init| {
          assert init[k] == contexts[k];
        }
      }
    }
  }

  /**
   * The summaries are exactly those of the first context of each named
   * source, in the order of those contexts: `Origins` lists every first
   * naming position, increasing, and summary `i` is built from position
   * `Origins[i]`.
   */
  lemma {:induction false} SummariesFromFirstContexts(contexts: seq<Context>, n: nat)
    ensures var r, o := Summaries(contexts, n), Origins(contexts);
      && |o| == |r|
      && (forall i, j :: 0 <= i < j < |o| ==> o[i] < o[j])
      && (forall i :: 0 <= i < |o| ==> FirstNaming(contexts, o[i]) && r[i] == SummaryOf(contexts[o[i]], n))
      && (forall k :: 0 <= k < |contexts| && FirstNaming(contexts, k) ==> k in o)
  {
    OriginsBuildSummaries(contexts, n);
    OriginsAreFirst(contexts);
    OriginsIncrease(contexts);
    OriginsComplete(contexts);
  }

  /** Summary `i` is built from the context at `Origins[i]`, which names a source. */
  lemma {:induction false} OriginsBuildSummaries(contexts: seq<Context>, n: nat)
    ensures |Origins(contexts)| == |Summaries(contexts, n)|
    ensures forall i :: 0 <= i < |Origins(contexts)| ==>
      Named(contexts[Origins(contexts)[i]]) && Summaries(contexts, n)[i] == SummaryOf(contexts[Origins(contexts)[i]], n)
    decreases |contexts|
  {
    if contexts != [] {
      var last := |contexts| - 1;
      var init, c := contexts[..last], contexts[last];
      OriginsBuildSummaries(init, n);
      var r0, o0 := Summaries(init, n), Origins(init);
      var r, o := Summaries(contexts, n), Origins(contexts);
      if Named(c) && c.metadata.source.value !in Seen(init) {
        assert r == r0 + [SummaryOf(c, n)] && o == o0 + [last];
      } else {
        assert r == r0 && o == o0;
      }
      forall i | 0 <= i < |o0|
        ensures o[i] == o0[i] && r[i] == r0[i] && contexts[o0[i]] == init[o0[i]]
      {
      }
    }
  }

  /** Every position in `Origins` is a first naming. */
  lemma {:induction false} OriginsAreFirst(contexts: seq<Context>)
    ensures forall i :: 0 <= i < |Origins(contexts)| ==> FirstNaming(contexts, Origins(contexts)[i])
    decreases |contexts|
  {
    if contexts != [] {
      var last := |contexts| - 1;
      var init := contexts[..last];
      OriginsAreFirst(init);
      EarlierNaming(contexts);
      var o0, o := Origins(init), Origins(contexts);
      assert contexts[..last] == init;
      if Named(contexts[last]) && contexts[last].metadata.source.value !in Seen(init) {
        assert o == o0 + [last];
        assert FirstNaming(contexts, last);
      } else {
        assert o == o0;
      }
      forall i | 0 <= i < |o0|
        ensures o[i] == o0[i] && FirstNaming(contexts, o0[i])
      {
        assert FirstNaming(init, o0[i]);
      }
    }
  }

  /** The positions in `Origins` increase. */
  lemma {:induction false} OriginsIncrease(contexts: seq<Context>)
    ensures forall i, j :: 0 <= i < j < |Origins(contexts)| ==> Origins(contexts)[i] < Origins(contexts)[j]
    decreases |contexts|
  {
    if contexts != [] {
      var last := |contexts| - 1;
      var init, c := contexts[..last], contexts[last];
      OriginsIncrease(init);
      var o0, o := Origins(init), Origins(contexts);
      if Named(c) && c.metadata.source.value !in Seen(init) {
        assert o == o0 + [last];
        forall i, j | 0 <= i < j < |o|
          ensures o[i] < o[j]
        {
          assert o[i] == o0[i] < |init|;
          if j < |o0| {
            assert o[j] == o0[j];
          }
        }
      } else {
        assert o == o0;
      }
    }
  }

  /** Every first naming is in `Origins`. */
  lemma {:induction false} OriginsComplete(contexts: seq<Context>)
    ensures forall k :: 0 <= k < |contexts| && FirstNaming(contexts, k) ==> k in Origins(contexts)
    decreases |contexts|
  {
    if contexts != [] {
      var last := |contexts| - 1;
      var init := contexts[..last];
      OriginsComplete(init);
      EarlierNaming(contexts);
      var o0, o := Origins(init), Origins(contexts);
      assert FirstNaming(contexts, last) == (Named(contexts[last]) && contexts[last].metadata.source.value !in Seen(init));
      forall k | 0 <= k < |contexts| && FirstNaming(contexts, k)
        ensures k in o
      {
        if k < last {
          assert FirstNaming(init, k);
          assert k in o0;
        }
      }
    }
  }

  /** Whether an earlier position is a first naming does not depend on what follows. */
  lemma {:induction false} EarlierNaming(contexts: seq<Context>)
    requires contexts != []
    ensures forall k :: 0 <= k < |contexts| - 1 ==> FirstNaming(contexts, k) == FirstNaming(contexts[..|contexts| - 1], k)
  {
    var init := contexts[..|contexts| - 1];
    forall k | 0 <= k < |init|
      ensures FirstNaming(contexts, k) == FirstNaming(init, k)
    {
      assert contexts[..k] == init[..k];
      assert contexts[k] == init[k];
    }
  }

  /** The sources a list of summaries names. */
  function SourceSet(summaries: seq<Summary>): set<string> {
    set i | 0 <= i < |summaries| :: summaries[i].source
  }

  lemma {:induction false} SourceSetAppend(summaries: seq<Summary>, x: Summary)
    ensures SourceSet(summaries + [x]) == SourceSet(summaries) + {x.source}
  {
    var r := summaries + [x];
    forall s | s in SourceSet(summaries)
      ensures s in SourceSet(r)
    {
      var i :| 0 <= i < |summaries| && summaries[i].source == s;
      assert r[i] == summaries[i];
    }
    assert r[|summaries|] == x;
  }

  /** Each named source has exactly one summary, and nothing else has one. */
  lemma {:induction false} SummariesDistinctSources(contexts: seq<Context>, n: nat)
    ensures forall i, j :: 0 <= i < j < |Summaries(contexts, n)| ==> Summaries(contexts, n)[i].source != Summaries(contexts, n)[j].source
    ensures SourceSet(Summaries(contexts, n)) == Seen(contexts)
  {
    SummariesDistinct(contexts, n);
    SummarySources(contexts, n);
  }

  /** The summaries name exactly the sources the contexts name. */
  lemma {:induction false} SummarySources(contexts: seq<Context>, n: nat)
    ensures SourceSet(Summaries(contexts, n)) == Seen(contexts)
    decreases |contexts|
  {
    if contexts != [] {
      var last := |contexts| - 1;
      var init, c := contexts[..last], contexts[last];
      SummarySources(init, n);
      var r0 := Summaries(init, n);
      assert Seen(contexts) == Seen(init) + if Named(c) then {c.metadata.source.value} else {};
      if Named(c) && c.metadata.source.value !in Seen(init) {
        assert Summaries(contexts, n) == r0 + [SummaryOf(c, n)];
        SourceSetAppend(r0, SummaryOf(c, n));
      } else {
        assert Summaries(contexts, n) == r0;
      }
    }
  }

  /** No two summaries name the same source. */
  lemma {:induction false} SummariesDistinct(contexts: seq<Context>, n: nat)
    ensures forall i, j :: 0 <= i < j < |Summaries(contexts, n)| ==> Summaries(contexts, n)[i].source != Summaries(contexts, n)[j].source
    decreases |contexts|
  {
    if contexts != [] {
      var last := |contexts| - 1;
      var init, c := contexts[..last], contexts[last];
      SummariesDistinct(init, n);
      SummarySources(init, n);
      var r0 := Summaries(init, n);
      var r := Summaries(contexts, n);
      if Named(c) && c.metadata.source.value !in Seen(init) {
        var x := SummaryOf(c, n);
        assert r == r0 + [x];
        forall i, j | 0 <= i < j < |r|
          ensures r[i].source != r[j].source
        {
          assert r[i] == r0[i];
          if j < |r0| {
            assert r[j] == r0[j];
          } else {
            assert r0[i].source in SourceSet(r0);
          }
        }
      } else {
        assert r == r0;
      }
    }
  }

  /** A context without a named source contributes nothing. */
  lemma {:induction false} UnnamedSkipped(contexts: seq<Context>, c: Context, n: nat)
    requires !Named(c)
    ensures Summaries(contexts + [c], n) == Summaries(contexts, n)
  {
    assert (contexts + [c])[..|contexts|] == contexts;
  }

  // ---------------------------------------------------------------------------
  // The sources footer
  // ---------------------------------------------------------------------------

  function SourceNames(summaries: seq<Summary>): (r: seq<string>)
    ensures |r| == |summaries|
    ensures forall i :: 0 <= i < |r| ==> r[i] == summaries[i].source
  {
    seq(|summaries|, i requires 0 <= i < |summaries| => summaries[i].source)
  }

  /** The footer's source list: the first five sources, one per line. */
  function FooterList(summaries: seq<Summary>): string {
    Join("\n", SourceNames(Prefix(summaries, FooterSources)))
  }

  /** The answer of `answer_with_context`: the raw answer, with a sources footer when it mentions no "Sources" and there are summaries. */
  function WithSources(raw: string, summaries: seq<Summary>): string {
    if !Contains(raw, "Sources") && summaries != [] then raw + "\n\nSources:\n" + FooterList(summaries)
    else raw
  }

  /** The raw answer is kept as the opening of the answer, and is the whole answer exactly when it already mentions "Sources" or there is nothing to list. */
  lemma {:induction false} AnswerExtendsRaw(raw: string, summaries: seq<Summary>)
    ensures StartsWith(WithSources(raw, summaries), raw)
    ensures WithSources(raw, summaries) == raw <==> Contains(raw, "Sources") || summaries == []
  {
    var a := WithSources(raw, summaries);
    if a != raw {
      assert a[..|raw|] == raw;
    }
  }

  /** With any summaries, the answer mentions "Sources". */
  lemma {:induction false} AnswerMentionsSources(raw: string, summaries: seq<Summary>)
    requires summaries != []
    ensures Contains(WithSources(raw, summaries), "Sources")
  {
    if !Contains(raw, "Sources") {
      var footer := FooterList(summaries);
      assert WithSources(raw, summaries) == raw + "\n\nSources:\n" + footer;
      FooterHeading();
      RegroupAround(raw, "\n\nSources:\n", footer, "\n\n", "Sources", ":\n");
      ContainsInfix(raw + "\n\n", "Sources", ":\n" + footer);
    }
  }

  lemma {:induction false} FooterHeading()
    ensures "\n\nSources:\n" == "\n\n" + "Sources" + ":\n"
  {
  }

  lemma {:induction false} RegroupAround(a: string, h: string, f: string, x: string, w: string, y: string)
    requires h == x + w + y
    ensures a + h + f == (a + x) + w + (y + f)
  {
  }

  /** Adding the footer once is enough: a second pass changes nothing. */
  lemma {:induction false} WithSourcesIdempotent(raw: string, summaries: seq<Summary>)
    ensures WithSources(WithSources(raw, summaries), summaries) == WithSources(raw, summaries)
  {
    if summaries != [] {
      AnswerMentionsSources(raw, summaries);
    }
  }

  /** The footer lists the first (at most five) sources, one per line, when no source name holds a newline. */
  lemma {:induction false} FooterLines(summaries: seq<Summary>)
    requires summaries != []
    requires forall i :: 0 <= i < |summaries| ==> Lacks(summaries[i].source, '\n')
    ensures Split(FooterList(summaries), "\n") == SourceNames(Prefix(summaries, FooterSources))
    ensures |Split(FooterList(summaries), "\n")| <= FooterSources
  {
    var shown := Prefix(summaries, FooterSources);
    var names := SourceNames(shown);
    assert "\n" == ['\n'];
    forall k | 0 <= k < |names| ensures Lacks(names[k], '\n') {
      assert shown[k] == summaries[k];
    }
    SplitJoinChar(names, '\n');
  }

  // ---------------------------------------------------------------------------
  // answer_with_context
  // ---------------------------------------------------------------------------

  /** The dictionary `answer_with_context` returns. */
  datatype Answer = Answer(
    question: string,
    answer: string,
    rawAnswer: string,
    sources: seq<Summary>,
    contexts: seq<Context>,
    prompt: string,
    topK: int,
    temperature: real,
    maxTokens: int,
    mode: string,
    model: string)

  /** The two messages sent to the generator. */
  function Messages(prompt: string): seq<Llm.Message> {
    [Llm.Message(Some("system"), Some(SystemPrompt)), Llm.Message(Some("user"), Some(prompt))]
  }

  /**
   * `answer_with_context`, with the index being `collection` and the generator
   * `llm`; `remoteReply` is what the OpenAI chat endpoint would send back.
   */
  method AnswerWithContext(question: string, topK: Option<int>, temperature: Option<real>, maxTokens: Option<int>,
      settings: Config.Settings, collection: FakeCollection, llm: Llm.ChatLlm, remoteReply: string)
    returns (r: Answer)
    ensures r.question == question
    ensures r.topK == topK.GetOr(settings.topK)
    ensures r.temperature == temperature.GetOr(settings.temperature)
    ensures r.maxTokens == maxTokens.GetOr(settings.maxTokens)
    ensures r.contexts == Retrieved(Ok(collection.Query(r.topK)))
    ensures r.prompt == BuildUserPrompt(question, r.contexts)
    ensures r.rawAnswer == if llm.Offline? then Join("\n", Llm.OfflineParts(Messages(r.prompt))) else Strip(remoteReply)
    ensures r.sources == Summaries(r.contexts, PreviewChars)
    ensures r.answer == WithSources(r.rawAnswer, r.sources)
    ensures r.mode == llm.Mode() && r.model == llm.ModelName()
  {
    var effectiveTopK := if topK.None? then settings.topK else topK.value;
    var effectiveTemperature := if temperature.None? then settings.temperature else temperature.value;
    var effectiveMaxTokens := if maxTokens.None? then settings.maxTokens else maxTokens.value;
    var contexts := RetrieveContext(Ok(collection.Query(effectiveTopK)));
    var userPrompt := BuildPrompt(question, contexts);
    var rawAnswer: string;
    if llm.Offline? {
      rawAnswer := Llm.Generate(Messages(userPrompt), effectiveTemperature, effectiveMaxTokens);
    } else {
      rawAnswer := Strip(remoteReply);
    }
    var sourceSummaries := SummariseSources(contexts, PreviewChars);
    var answer := AddSourcesFooter(rawAnswer, sourceSummaries);
    r := Answer(question, answer, rawAnswer, sourceSummaries, contexts, userPrompt,
      effectiveTopK, effectiveTemperature, effectiveMaxTokens, llm.Mode(), llm.ModelName());
  }

  /** The footer step of `answer_with_context`. */
  method AddSourcesFooter(rawAnswer: string, summaries: seq<Summary>) returns (answer: string)
    ensures answer == WithSources(rawAnswer, summaries)
  {
    if !Contains(rawAnswer, "Sources") && summaries != [] {
      answer := rawAnswer + "\n\nSources:\n" + Join("\n", SourceNames(Prefix(summaries, FooterSources)));
    } else {
      answer := rawAnswer;
    }
  }
}
