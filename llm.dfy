/**
 * The chat generators of app/llm.py: the deterministic offline summariser
 * `OfflineChatLLM.generate` and the backend selection of `get_chat_llm`.
 * The OpenAI client is not modelled; whether constructing it succeeds is a
 * parameter of the selection.
 */
module Llm {
  import opened Wrappers
  import opened PyStr
  import Config

  /** A chat message dictionary: its `role` and `content` keys, None when absent. */
  datatype Message = Message(role: Option<string>, content: Option<string>)

  const Header: string := "\U{1F916} Offline JosefGPT response"
  const Guidance: string := "Guidance: leverage available context, run small experiments, and automate repeatable wins."
  const SystemPrefix: string := "System focus: "
  const QuestionPrefix: string := "Question: "
  const HighlightsTitle: string := "Context highlights:"
  const Bullet: string := "- "
  const SnippetChars: nat := 220
  const MaxHighlights: nat := 3

  // ---------------------------------------------------------------------------
  // Specification of the offline answer
  // ---------------------------------------------------------------------------

  /** The content of the last message with role `role`, or "" when there is none (a missing content reads as ""). */
  function LastContent(messages: seq<Message>, role: string): string {
    if messages == [] then ""
    else if messages[|messages| - 1].role == Some(role) then messages[|messages| - 1].content.GetOr("")
    else LastContent(messages[..|messages| - 1], role)
  }

  /** A later message with the role replaces what came before. */
  lemma {:induction false} LastWins(messages: seq<Message>, role: string, content: string)
    ensures LastContent(messages + [Message(Some(role), Some(content))], role) == content
  {
  }

  /** A later message with another role leaves the content alone. */
  lemma {:induction false} OtherRoleKeeps(messages: seq<Message>, m: Message, role: string)
    requires m.role != Some(role)
    ensures LastContent(messages + [m], role) == LastContent(messages, role)
  {
    assert (messages + [m])[..|messages|] == messages;
  }

  /** `s.split(p, 1)` when `p` occurs: the text before and after its first occurrence. */
  function Before(s: string, p: string): (r: string)
    requires Contains(s, p)
    ensures !Contains(r, p) || p == []
  {
    var i := Find(s, p).value;
    if p != [] then HeadBeforeFind(s, p, i); s[..i] else s[..i]
  }

  function After(s: string, p: string): (r: string)
    requires Contains(s, p)
    ensures |r| <= |s| && r == s[|s| - |r|..]
  {
    var i := Find(s, p).value;
    s[i + |p|..]
  }

  /** The text between "Context:" and "Question:", when the user content has a context part. */
  function ContextBody(user: string): Option<string> {
    if !Contains(user, "Context:") then None
    else
      var part := After(user, "Context:");
      if Contains(part, "Question:") then Some(Before(part, "Question:")) else Some(part)
  }

  /** The question text before whitespace is normalised. */
  function RawQuestion(user: string): string {
    if !Contains(user, "Context:") then user
    else
      var part := After(user, "Context:");
      if Contains(part, "Question:") then After(part, "Question:") else ""
  }

  function Question(user: string): string {
    Collapse(Strip(RawQuestion(user)))
  }

  /** The snippet a context chunk yields, if any: its collapsed text cut to 220 characters. */
  function Snippet(chunk: string): seq<string> {
    var c := Collapse(Strip(chunk));
    if c != "" then [Prefix(c, SnippetChars)] else []
  }

  function Snippets(chunks: seq<string>): seq<string> {
    if chunks == [] then [] else Snippets(chunks[..|chunks| - 1]) + Snippet(chunks[|chunks| - 1])
  }

  /** At most one snippet per chunk, each non-empty, single-spaced and at most 220 characters long. */
  lemma {:induction false} SnippetsShape(chunks: seq<string>)
    ensures var r := Snippets(chunks);
      |r| <= |chunks| && forall k :: 0 <= k < |r| ==> r[k] != "" && |r[k]| <= SnippetChars && SingleSpaced(r[k])
    decreases |chunks|
  {
    if chunks != [] {
      var init := chunks[..|chunks| - 1];
      SnippetsShape(init);
      var last := Snippet(chunks[|chunks| - 1]);
      SnippetShape(chunks[|chunks| - 1]);
      var r0, r := Snippets(init), Snippets(chunks);
      assert r == r0 + last;
      forall k | 0 <= k < |r|
        ensures r[k] != "" && |r[k]| <= SnippetChars && SingleSpaced(r[k])
      {
        if k < |r0| {
          assert r[k] == r0[k];
        } else {
          assert r[k] == last[k - |r0|];
        }
      }
    }
  }

  /** One chunk yields at most one snippet, non-empty, single-spaced and at most 220 characters long. */
  lemma {:induction false} SnippetShape(chunk: string)
    ensures |Snippet(chunk)| <= 1
    ensures forall k :: 0 <= k < |Snippet(chunk)| ==>
      Snippet(chunk)[k] != "" && |Snippet(chunk)[k]| <= SnippetChars && SingleSpaced(Snippet(chunk)[k])
  {
    var c := Collapse(Strip(chunk));
    CollapseIsCollapsed(Strip(chunk));
    SingleSpacedPrefix(c, SnippetChars);
  }

  /** All snippets the user content yields, in order. */
  function Highlights(user: string): seq<string> {
    match ContextBody(user)
    case None => []
    case Some(body) => Snippets(Split(body, "\n---"))
  }

  function Bullets(snippets: seq<string>): (r: seq<string>)
    ensures |r| == |snippets|
    ensures forall k :: 0 <= k < |r| ==> r[k] == Bullet + snippets[k]
  {
    if snippets == [] then [] else Bullets(snippets[..|snippets| - 1]) + [Bullet + snippets[|snippets| - 1]]
  }

  function SystemLines(system: string): seq<string> {
    if system != "" then [SystemPrefix + Strip(system)] else []
  }

  function QuestionLines(question: string): seq<string> {
    if question != "" then [QuestionPrefix + question] else []
  }

  function HighlightLines(snippets: seq<string>): seq<string> {
    if snippets != [] then [HighlightsTitle] + Bullets(Prefix(snippets, MaxHighlights)) else []
  }

  /** The lines of the offline answer. */
  function OfflineParts(messages: seq<Message>): seq<string> {
    var user := LastContent(messages, "user");
    [Header] + SystemLines(LastContent(messages, "system")) + QuestionLines(Question(user))
      + HighlightLines(Highlights(user)) + [Guidance]
  }

  // ---------------------------------------------------------------------------
  // OfflineChatLLM.generate
  // ---------------------------------------------------------------------------

  /** `OfflineChatLLM.generate`: temperature and the token limit are accepted and ignored. */
  method Generate(messages: seq<Message>, temperature: real, maxTokens: int) returns (text: string)
    ensures text == Join("\n", OfflineParts(messages))
  {
    var user, system := ReadRoles(messages);
    var snippets, question := ReadUserContent(user);
    var parts := AssembleParts(system, question, snippets);
    text := Join("\n", parts);
  }

  /** The first loop of `generate`: the last user and the last system content win. */
  method ReadRoles(messages: seq<Message>) returns (user: string, system: string)
    ensures user == LastContent(messages, "user")
    ensures system == LastContent(messages, "system")
  {
    user, system := "", "";
    var i := 0;
    while i < |messages|
      invariant 0 <= i <= |messages|
      invariant user == LastContent(messages[..i], "user")
      invariant system == LastContent(messages[..i], "system")
    {
      var m := messages[i];
      assert messages[..i + 1][..i] == messages[..i];
      if m.role == Some("user") {
        user := m.content.GetOr("");
      } else if m.role == Some("system") {
        system := m.content.GetOr("");
      }
      i := i + 1;
    }
    assert messages[..i] == messages;
  }

  /** Splitting the user content into context snippets and the normalised question. */
  method ReadUserContent(user: string) returns (snippets: seq<string>, question: string)
    ensures snippets == Highlights(user)
    ensures question == Question(user)
  {
    snippets := [];
    question := user;
    if Contains(user, "Context:") {
      var part := After(user, "Context:");
      var body: string;
      if Contains(part, "Question:") {
        body, question := Before(part, "Question:"), After(part, "Question:");
      } else {
        body, question := part, "";
      }
      snippets := CollectSnippets(Split(body, "\n---"));
    }
    question := Collapse(Strip(question));
  }

  /** The loop over the `"\n---"` pieces of the context body. */
  method CollectSnippets(chunks: seq<string>) returns (snippets: seq<string>)
    ensures snippets == Snippets(chunks)
  {
    snippets := [];
    var j := 0;
    while j < |chunks|
      invariant 0 <= j <= |chunks|
      invariant snippets == Snippets(chunks[..j])
    {
      SnippetsSnoc(chunks, j);
      snippets := snippets + Snippet(chunks[j]);
      j := j + 1;
    }
    assert chunks[..j] == chunks;
  }

  lemma {:induction false} SnippetsSnoc(chunks: seq<string>, j: nat)
    requires j < |chunks|
    ensures Snippets(chunks[..j + 1]) == Snippets(chunks[..j]) + Snippet(chunks[j])
  {
    assert chunks[..j + 1][..j] == chunks[..j];
  }

  /** The list of answer lines, built by appending. */
  method AssembleParts(system: string, question: string, snippets: seq<string>) returns (parts: seq<string>)
    ensures parts == [Header] + SystemLines(system) + QuestionLines(question) + HighlightLines(snippets) + [Guidance]
  {
    parts := OpeningParts(system, question);
    parts := AppendHighlights(parts, snippets);
    parts := parts + [Guidance];
  }

  /** The "Context highlights:" title and one bullet per shown snippet, when there are snippets. */
  method AppendHighlights(lines: seq<string>, snippets: seq<string>) returns (parts: seq<string>)
    ensures parts == lines + HighlightLines(snippets)
  {
    parts := lines;
    if snippets != [] {
      parts := parts + [HighlightsTitle];
      parts := AppendBullets(parts, Prefix(snippets, MaxHighlights));
      assert parts == lines + ([HighlightsTitle] + Bullets(Prefix(snippets, MaxHighlights)));
    }
  }

  /** The header, then the system and question lines when present. */
  method OpeningParts(system: string, question: string) returns (parts: seq<string>)
    ensures parts == [Header] + SystemLines(system) + QuestionLines(question)
  {
    parts := [Header];
    if system != "" {
      parts := parts + [SystemPrefix + Strip(system)];
    }
    if question != "" {
      parts := parts + [QuestionPrefix + question];
    }
  }

  /** The loop that adds one "- " line per shown snippet. */
  method AppendBullets(lines: seq<string>, shown: seq<string>) returns (parts: seq<string>)
    ensures parts == lines + Bullets(shown)
  {
    parts := lines;
    var k := 0;
    while k < |shown|
      invariant 0 <= k <= |shown|
      invariant parts == lines + Bullets(shown[..k])
    {
      assert shown[..k + 1][..k] == shown[..k];
      parts := parts + [Bullet + shown[k]];
      k := k + 1;
    }
    assert shown[..k] == shown;
  }

  // ---------------------------------------------------------------------------
  // What the offline answer promises
  // ---------------------------------------------------------------------------

  /** The lines whose first character is `c`, in order. */
  function Tagged(lines: seq<string>, c: char): (r: seq<string>)
    ensures |r| <= |lines|
  {
    if lines == [] then []
    else Tagged(lines[..|lines| - 1], c) + (var l := lines[|lines| - 1]; if l != [] && l[0] == c then [l] else [])
  }

  lemma {:induction false} TaggedAppend(a: seq<string>, b: seq<string>, c: char)
    ensures Tagged(a + b, c) == Tagged(a, c) + Tagged(b, c)
    decreases |b|
  {
    if b == [] {
      assert a + b == a;
    } else {
      var init := b[..|b| - 1];
      assert (a + b)[..|a + b| - 1] == a + init;
      TaggedAppend(a, init, c);
    }
  }

  lemma {:induction false} TaggedBullets(snippets: seq<string>, c: char)
    ensures Tagged(Bullets(snippets), c) == if c == '-' then Bullets(snippets) else []
    decreases |snippets|
  {
    if snippets != [] {
      var b := Bullets(snippets);
      assert b[..|b| - 1] == Bullets(snippets[..|snippets| - 1]);
      TaggedBullets(snippets[..|snippets| - 1], c);
    }
  }

  lemma {:induction false} TaggedOne(l: string, c: char)
    ensures Tagged([l], c) == if l != [] && l[0] == c then [l] else []
  {
    assert [l][..0] == [];
  }

  /** Tagging three groups of lines one after another. */
  lemma {:induction false} TaggedGroups(sl: seq<string>, ql: seq<string>, hl: seq<string>, c: char)
    ensures Tagged(sl + ql + hl, c) == Tagged(sl, c) + Tagged(ql, c) + Tagged(hl, c)
  {
    TaggedAppend(sl, ql, c);
    TaggedAppend(sl + ql, hl, c);
  }

  lemma {:induction false} TaggedSystemLines(system: string, c: char)
    ensures Tagged(SystemLines(system), c) == if c == 'S' then SystemLines(system) else []
  {
    if system != "" {
      TaggedOne(SystemPrefix + Strip(system), c);
    }
  }

  lemma {:induction false} TaggedQuestionLines(question: string, c: char)
    ensures Tagged(QuestionLines(question), c) == if c == 'Q' then QuestionLines(question) else []
  {
    if question != "" {
      TaggedOne(QuestionPrefix + question, c);
    }
  }

  lemma {:induction false} TaggedHighlightLines(snippets: seq<string>, c: char)
    requires c != 'C'
    ensures Tagged(HighlightLines(snippets), c) == if c == '-' then Bullets(Prefix(snippets, MaxHighlights)) else []
  {
    if snippets != [] {
      var shown := Prefix(snippets, MaxHighlights);
      TaggedAppend([HighlightsTitle], Bullets(shown), c);
      TaggedOne(HighlightsTitle, c);
      TaggedBullets(shown, c);
    }
  }

  /** The lines of the answer between its header and its guidance line. */
  function BodyLines(messages: seq<Message>): (r: seq<string>)
    ensures OfflineParts(messages) == [Header] + r + [Guidance]
  {
    var user := LastContent(messages, "user");
    var sl, ql, hl := SystemLines(LastContent(messages, "system")), QuestionLines(Question(user)), HighlightLines(Highlights(user));
    RegroupParts([Header], sl, ql, hl, [Guidance]);
    sl + ql + hl
  }

  lemma {:induction false} RegroupParts<T>(h: seq<T>, a: seq<T>, b: seq<T>, c: seq<T>, g: seq<T>)
    ensures h + (a + b + c) + g == h + a + b + c + g
  {
    Associative(h, a + b, c);
    Associative(h, a, b);
  }

  /** Between header and guidance, the one line starting with "S" is the system focus, present exactly when there is system content. */
  lemma {:induction false} SystemFocusLine(messages: seq<Message>)
    ensures var system := LastContent(messages, "system");
      Tagged(BodyLines(messages), 'S') == if system != "" then [SystemPrefix + Strip(system)] else []
  {
    var system := LastContent(messages, "system");
    var user := LastContent(messages, "user");
    var sl := SystemLines(system);
    TaggedGroups(sl, QuestionLines(Question(user)), HighlightLines(Highlights(user)), 'S');
    TaggedSystemLines(system, 'S');
    TaggedQuestionLines(Question(user), 'S');
    TaggedHighlightLines(Highlights(user), 'S');
    Around([], sl, [], Tagged(BodyLines(messages), 'S'));
  }

  /** Between header and guidance, the one line starting with "Q" is the normalised question, present exactly when it is not empty. */
  lemma {:induction false} QuestionLine(messages: seq<Message>)
    ensures var question := Question(LastContent(messages, "user"));
      Tagged(BodyLines(messages), 'Q') == if question != "" then [QuestionPrefix + question] else []
  {
    var system := LastContent(messages, "system");
    var user := LastContent(messages, "user");
    var question := Question(user);
    var ql := QuestionLines(question);
    TaggedGroups(SystemLines(system), ql, HighlightLines(Highlights(user)), 'Q');
    TaggedSystemLines(system, 'Q');
    TaggedQuestionLines(question, 'Q');
    TaggedHighlightLines(Highlights(user), 'Q');
    Around([], ql, [], Tagged(BodyLines(messages), 'Q'));
  }

  /**
   * Between header and guidance, the lines starting with "-" are the first
   * three snippets in order, each non-empty, single-spaced and at most 220
   * characters long.
   */
  lemma {:induction false} HighlightBullets(messages: seq<Message>)
    ensures var user := LastContent(messages, "user");
      var shown := Prefix(Highlights(user), MaxHighlights);
      && Tagged(BodyLines(messages), '-') == Bullets(shown)
      && |shown| <= MaxHighlights
      && forall s :: s in shown ==> s != "" && |s| <= SnippetChars && SingleSpaced(s)
  {
    var system := LastContent(messages, "system");
    var user := LastContent(messages, "user");
    var snippets := Highlights(user);
    TaggedGroups(SystemLines(system), QuestionLines(Question(user)), HighlightLines(snippets), '-');
    TaggedSystemLines(system, '-');
    TaggedQuestionLines(Question(user), '-');
    TaggedHighlightLines(snippets, '-');
    Around([], Bullets(Prefix(snippets, MaxHighlights)), [], Tagged(BodyLines(messages), '-'));
    ShownSnippets(user);
  }

  lemma {:induction false} Around<T>(a: seq<T>, b: seq<T>, c: seq<T>, s: seq<T>)
    requires a == [] && c == [] && (s == a + b + c || s == a + c + b || s == b + a + c)
    ensures s == b
  {
  }

  lemma {:induction false} ShownSnippets(user: string)
    ensures var shown := Prefix(Highlights(user), MaxHighlights);
      |shown| <= MaxHighlights
      && forall s :: s in shown ==> s != "" && |s| <= SnippetChars && SingleSpaced(s)
  {
    var all := Highlights(user);
    var shown := Prefix(all, MaxHighlights);
    match ContextBody(user)
    case None =>
    case Some(body) => SnippetsShape(Split(body, "\n---"));
    forall s | s in shown
      ensures s != "" && |s| <= SnippetChars && SingleSpaced(s)
    {
      var k :| 0 <= k < |shown| && shown[k] == s;
      assert all[k] == s;
    }
  }

  /** A joined layout opens with its first line and closes with its last. */
  lemma {:induction false} JoinFrame(sep: string, h: string, sl: seq<string>, ql: seq<string>, hl: seq<string>, g: string)
    ensures var text := Join(sep, [h] + sl + ql + hl + [g]);
      StartsWith(text, h + sep) && EndsWith(text, sep + g)
  {
    var mid := sl + ql + hl;
    assert [h] + sl + ql + hl + [g] == [h] + (mid + [g]);
    assert [h] + sl + ql + hl + [g] == ([h] + mid) + [g];
    JoinOpens(sep, h, mid + [g]);
    JoinCloses(sep, [h] + mid, g);
  }

  lemma {:induction false} JoinOpens(sep: string, h: string, rest: seq<string>)
    requires rest != []
    ensures StartsWith(Join(sep, [h] + rest), h + sep)
  {
    JoinAppend(sep, [h], rest);
    var text := Join(sep, [h] + rest);
    assert text == h + sep + Join(sep, rest);
    assert text[..|h + sep|] == h + sep;
  }

  lemma {:induction false} JoinCloses(sep: string, init: seq<string>, g: string)
    requires init != []
    ensures EndsWith(Join(sep, init + [g]), sep + g)
  {
    JoinAppend(sep, init, [g]);
    var text := Join(sep, init + [g]);
    assert text == Join(sep, init) + sep + g;
    assert text[|text| - |sep + g|..] == sep + g;
  }

  /** The answer always opens with the header line and closes with the guidance line. */
  lemma {:induction false} OfflineFrame(messages: seq<Message>)
    ensures var text := Join("\n", OfflineParts(messages));
      StartsWith(text, Header + "\n") && EndsWith(text, "\n" + Guidance)
  {
    var user := LastContent(messages, "user");
    JoinFrame("\n", Header, SystemLines(LastContent(messages, "system")), QuestionLines(Question(user)),
      HighlightLines(Highlights(user)), Guidance);
  }

  /** Without a "Context:" marker there are no highlights and the whole user content is the question. */
  lemma {:induction false} NoContextMarker(user: string)
    requires !Contains(user, "Context:")
    ensures Highlights(user) == []
    ensures Question(user) == Collapse(user)
  {
    CollapseOfStrip(user);
  }

  // ---------------------------------------------------------------------------
  // get_chat_llm
  // ---------------------------------------------------------------------------

  /** The generator `get_chat_llm` hands out, with the `mode` and `model_name` it reports. */
  datatype ChatLlm = Offline | OpenAI(model: string) {
    function Mode(): string {
      match this
      case Offline => "offline"
      case OpenAI(_) => "openai"
    }
    function ModelName(): string {
      match this
      case Offline => "rule-based-summariser"
      case OpenAI(m) => m
    }
  }

  /** `(settings.llm_mode or "auto").strip().lower()` */
  function Mode(llmMode: string): string {
    Lower(Strip(if llmMode == "" then "auto" else llmMode))
  }

  /** `get_chat_llm`; `initSucceeds` says whether constructing the OpenAI client returns or raises. */
  function SelectChatLlm(settings: Config.Settings, initSucceeds: bool): (r: Result<ChatLlm>)
    ensures r.Ok? && r.value.OpenAI? ==> r.value.model == settings.openaiModel
  {
    var mode := Mode(settings.llmMode);
    var keyPresent := settings.openaiApiKey.Some? && settings.openaiApiKey.value != "";
    if mode == "offline" then Ok(Offline)
    else if (mode == "openai" || mode == "auto") && keyPresent then
      if initSucceeds then Ok(OpenAI(settings.openaiModel))
      else if mode == "openai" then Raised
      else Ok(Offline)
    else Ok(Offline)
  }

  /** The decision table: offline mode always wins; the OpenAI backend needs openai/auto mode, a key and a working client; only an explicit "openai" mode surfaces a failing client. */
  lemma {:induction false} SelectionTable(settings: Config.Settings, initSucceeds: bool)
    ensures var mode := Mode(settings.llmMode);
      var keyPresent := settings.openaiApiKey.Some? && settings.openaiApiKey.value != "";
      var r := SelectChatLlm(settings, initSucceeds);
      && (mode == "offline" ==> r == Ok(Offline))
      && (r.Ok? && r.value.OpenAI? <==> (mode == "openai" || mode == "auto") && keyPresent && initSucceeds)
      && (r.Raised? <==> mode == "openai" && keyPresent && !initSucceeds)
      && (!keyPresent ==> r == Ok(Offline))
      && (mode != "openai" && mode != "auto" ==> r == Ok(Offline))
  {
  }

  /** The mode setting is read case-insensitively. */
  lemma {:induction false} ModeIgnoresCase(llmMode: string)
    ensures Mode(Lower(llmMode)) == Mode(llmMode)
  {
    if llmMode != "" {
      assert Lower(llmMode) != "";
      StripLower(llmMode);
      LowerTwice(Strip(llmMode));
    }
  }

  /** A mode of only whitespace is not "auto": it strips to "" and selects the offline generator. */
  lemma {:induction false} BlankModeIsOffline(settings: Config.Settings, initSucceeds: bool)
    requires settings.llmMode != "" && AllSpace(settings.llmMode)
    ensures SelectChatLlm(settings, initSucceeds) == Ok(Offline)
  {
    StripEmptyIffAllSpace(settings.llmMode);
  }
}
