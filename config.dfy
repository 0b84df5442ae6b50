/**
 * The settings loader of app/config.py: the environment-variable parsers
 * `_bool`, `_int` and `_split_paths`, and the `Settings` record with its
 * defaults.  The process environment is an explicit map from variable names
 * to values.
 */
module Config {
  import opened Wrappers
  import opened PyStr

  type Env = map<string, string>

  /** `os.getenv(name)`. */
  function Getenv(env: Env, name: string): Option<string> {
    if name in env then Some(env[name]) else None
  }

  /** `os.getenv(name, default)`. */
  function GetenvOr(env: Env, name: string, default: string): string {
    Getenv(env, name).GetOr(default)
  }

  // ---------------------------------------------------------------------------
  // _bool
  // ---------------------------------------------------------------------------

  const TruthyWords: set<string> := {"1", "true", "yes", "on"}

  /** `_bool(value, default)`: an unset variable keeps the default; a set one is true exactly when it spells a truthy word. */
  function Bool(value: Option<string>, default: bool): (r: bool)
    ensures value.None? ==> r == default
  {
    match value
    case None => default
    case Some(v) => Lower(Strip(v)) in TruthyWords
  }

  /**
   * A value that `strip()` and `lower()` leave alone (for instance one made of
   * lower-case letters and digits, by `PlainWordNormal`) is true exactly when
   * it is one of the truthy words.
   */
  lemma {:induction false} BoolOfNormal(w: string, d: bool)
    requires Lower(Strip(w)) == w
    ensures Bool(Some(w), d) <==> w in TruthyWords
  {
  }

  /** Once the variable is set, the default plays no part. */
  lemma {:induction false} BoolIgnoresDefault(v: string, d1: bool, d2: bool)
    ensures Bool(Some(v), d1) == Bool(Some(v), d2)
  {
  }

  /** Whitespace around a value does not change how it reads. */
  lemma {:induction false} BoolIgnoresPadding(v: string, d: bool)
    ensures Bool(Some(Strip(v)), d) == Bool(Some(v), d)
  {
    var t := Strip(v);
    StripUnchanged(t);
  }

  /** Letter case does not change how a value reads. */
  lemma {:induction false} BoolIgnoresCase(v: string, d: bool)
    ensures Bool(Some(Lower(v)), d) == Bool(Some(v), d)
  {
    StripLower(v);
    LowerTwice(Strip(v));
  }

  // ---------------------------------------------------------------------------
  // _int
  // ---------------------------------------------------------------------------

  /** `_int(value, default)`: the decimal value of a set variable, the default when it is unset or not an integer literal. */
  function Int(value: Option<string>, default: int): (r: int)
    ensures value.None? ==> r == default
  {
    match value
    case None => default
    case Some(v) => ParseInt(v).GetOr(default)
  }

  /** A variable holding `str(n)` reads back as `n`. */
  lemma {:induction false} IntOfRendering(n: nat, d: int)
    ensures Int(Some(NatToString(n)), d) == n
  {
    ParseNatString(n);
  }

  /** A variable without a single digit falls back to the default. */
  lemma {:induction false} IntWithoutDigits(v: string, d: int)
    requires forall i :: 0 <= i < |v| ==> !IsDigit(v[i])
    ensures Int(Some(v), d) == d
  {
    ParseIntNeedsDigit(v);
  }

  // ---------------------------------------------------------------------------
  // _split_paths
  // ---------------------------------------------------------------------------

  /** `[item.strip() for item in parts]` followed by `[item for item in ... if item]`. */
  function CleanParts(parts: seq<string>): (r: seq<string>)
    ensures |r| <= |parts|
  {
    if parts == [] then []
    else
      var item := Strip(parts[0]);
      if item == [] then CleanParts(parts[1..]) else [item] + CleanParts(parts[1..])
  }

  /** Every surviving item is clean. */
  lemma {:induction false} CleanPartsClean(parts: seq<string>)
    ensures forall k :: 0 <= k < |CleanParts(parts)| ==> Clean(CleanParts(parts)[k])
    decreases |parts|
  {
    if parts != [] {
      var item, rest := Strip(parts[0]), CleanParts(parts[1..]);
      CleanPartsClean(parts[1..]);
      if item != [] {
        assert Clean(item);
        var r := CleanParts(parts);
        assert r == [item] + rest;
        forall k | 0 <= k < |r| ensures Clean(r[k]) {
          if k > 0 {
            assert r[k] == rest[k - 1];
          }
        }
      }
    }
  }

  /** What survives `strip` and the emptiness filter: a non-empty text with no whitespace at either end. */
  predicate Clean(item: string) {
    item != [] && !IsSpace(item[0]) && !IsSpace(item[|item| - 1])
  }

  /** `_split_paths(value, default)` on path text: the defaults when the variable is unset or empty, else the stripped, non-empty comma-separated items. */
  function SplitPaths(value: Option<string>, default: seq<string>): (r: seq<string>)
    ensures value.None? || value == Some("") ==> r == default
    ensures value.Some? && value != Some("") ==> forall k :: 0 <= k < |r| ==> Clean(r[k]) && Lacks(r[k], ',')
  {
    if value.None? || value.value == "" then default
    else
      var pieces := Split(value.value, ",");
      forall k | 0 <= k < |pieces|
        ensures Lacks(pieces[k], ',')
      {
        NotContainsLacks(pieces[k], ',');
      }
      CleanPartsKeepOut(pieces, ',');
      CleanPartsClean(pieces);
      CleanParts(pieces)
  }

  lemma {:induction false} NotContainsLacks(x: string, c: char)
    requires !Contains(x, [c])
    ensures Lacks(x, c)
  {
    forall i | 0 <= i < |x|
      ensures x[i] != c
    {
      assert x[i..i + 1] == [x[i]];
      OccursImpliesContains(x, [x[i]], i);
    }
  }

  /** Stripping keeps a character out if it was out. */
  lemma {:induction false} StripLacks(x: string, c: char)
    requires Lacks(x, c)
    ensures Lacks(Strip(x), c)
  {
    var l := LStrip(x);
    var t := Strip(x);
    assert t == l[..|t|];
    assert l == x[|x| - |l|..];
    forall i | 0 <= i < |t|
      ensures t[i] != c
    {
      assert t[i] == x[|x| - |l| + i];
    }
  }

  lemma {:induction false} CleanPartsKeepOut(parts: seq<string>, c: char)
    requires forall k :: 0 <= k < |parts| ==> Lacks(parts[k], c)
    ensures forall k :: 0 <= k < |CleanParts(parts)| ==> Lacks(CleanParts(parts)[k], c)
    decreases |parts|
  {
    if parts != [] {
      StripLacks(parts[0], c);
      CleanPartsKeepOut(parts[1..], c);
    }
  }

  /** Items that are already clean pass through unchanged and in order. */
  lemma {:induction false} CleanPartsOfClean(parts: seq<string>)
    requires forall k :: 0 <= k < |parts| ==> Clean(parts[k])
    ensures CleanParts(parts) == parts
    decreases |parts|
  {
    if parts != [] {
      StripUnchanged(parts[0]);
      CleanPartsOfClean(parts[1..]);
      assert [parts[0]] + parts[1..] == parts;
    }
  }

  /** Blank items all disappear. */
  lemma {:induction false} CleanPartsOfBlank(parts: seq<string>)
    requires forall k :: 0 <= k < |parts| ==> AllSpace(parts[k])
    ensures CleanParts(parts) == []
    decreases |parts|
  {
    if parts != [] {
      StripEmptyIffAllSpace(parts[0]);
      CleanPartsOfBlank(parts[1..]);
    }
  }

  /** `c` or whitespace */
  predicate SpaceOr(ch: char, c: char) {
    ch == c || IsSpace(ch)
  }

  /** A joined text made only of `c` and whitespace has parts made only of `c` and whitespace. */
  lemma {:induction false} PartsOfJoin(sep: string, parts: seq<string>, c: char)
    requires forall j :: 0 <= j < |Join(sep, parts)| ==> SpaceOr(Join(sep, parts)[j], c)
    ensures forall k, i :: 0 <= k < |parts| && 0 <= i < |parts[k]| ==> SpaceOr(parts[k][i], c)
    decreases |parts|
  {
    if |parts| == 1 {
      assert Join(sep, parts) == parts[0];
    } else if |parts| > 1 {
      var j := Join(sep, parts);
      var rest := Join(sep, parts[1..]);
      assert j == parts[0] + sep + rest;
      assert forall i :: 0 <= i < |parts[0]| ==> j[i] == parts[0][i];
      assert forall i :: 0 <= i < |rest| ==> j[|parts[0]| + |sep| + i] == rest[i];
      PartsOfJoin(sep, parts[1..], c);
      assert forall k :: 1 <= k < |parts| ==> parts[k] == parts[1..][k - 1];
    }
  }

  /** A list of clean comma-free directories written out with commas reads back as the same list. */
  lemma {:induction false} SplitPathsOfJoin(dirs: seq<string>, default: seq<string>)
    requires dirs != []
    requires forall k :: 0 <= k < |dirs| ==> Clean(dirs[k]) && Lacks(dirs[k], ',')
    ensures SplitPaths(Some(Join(",", dirs)), default) == dirs
  {
    var v := Join(",", dirs);
    assert v != "" by {
      if |dirs| > 1 {
        assert v == dirs[0] + "," + Join(",", dirs[1..]);
      }
    }
    SplitJoinChar(dirs, ',');
    CleanPartsOfClean(dirs);
  }

  /** A value made only of commas and whitespace names no directory at all, rather than falling back to the defaults. */
  lemma {:induction false} SplitPathsOfSeparators(v: string, default: seq<string>)
    requires v != ""
    requires forall i :: 0 <= i < |v| ==> v[i] == ',' || IsSpace(v[i])
    ensures SplitPaths(Some(v), default) == []
  {
    var pieces := Split(v, ",");
    assert forall j :: 0 <= j < |Join(",", pieces)| ==> SpaceOr(Join(",", pieces)[j], ',');
    PartsOfJoin(",", pieces, ',');
    forall k | 0 <= k < |pieces|
      ensures AllSpace(pieces[k])
    {
      NotContainsLacks(pieces[k], ',');
    }
    CleanPartsOfBlank(pieces);
  }

  // ---------------------------------------------------------------------------
  // _float and Settings
  // ---------------------------------------------------------------------------

  /** `_float(value, default)`; `float()` itself is a parameter (IEEE parsing is not modelled). */
  function Float(value: Option<string>, default: real, parseFloat: string -> Option<real>): (r: real)
    ensures value.None? ==> r == default
  {
    match value
    case None => default
    case Some(v) => parseFloat(v).GetOr(default)
  }

  /** The frozen `Settings` dataclass; paths are kept as their text. */
  datatype Settings = Settings(
    openaiModel: string,
    openaiApiKey: Option<string>,
    llmMode: string,
    topK: int,
    maxTokens: int,
    temperature: real,
    useOpenAIEmbeddings: bool,
    embeddingModel: string,
    embeddingsPath: string,
    sourceDirs: seq<string>,
    supportedSuffixes: seq<string>,
    textSuffixes: seq<string>)

  const DefaultSourceDirs: seq<string> := ["books", "texts", "data"]
  const SupportedSuffixes: seq<string> := [".pdf", ".epub", ".txt", ".md", ".mdx"]
  const TextSuffixes: seq<string> := [".txt", ".md", ".mdx"]

  /** `Settings()` evaluated against the environment `env`. */
  function Load(env: Env, parseFloat: string -> Option<real>): (s: Settings)
    ensures s.supportedSuffixes == SupportedSuffixes && s.textSuffixes == TextSuffixes
    ensures forall x :: x in s.textSuffixes ==> x in s.supportedSuffixes
    ensures "TOP_K" !in env ==> s.topK == 6
    ensures "MAX_TOKENS" !in env ==> s.maxTokens == 900
    ensures "LLM_MODE" !in env ==> s.llmMode == "auto"
    ensures "SOURCE_DIRS" !in env ==> s.sourceDirs == DefaultSourceDirs
    ensures "OPENAI_API_KEY" !in env <==> s.openaiApiKey.None?
  {
    Settings(
      openaiModel := GetenvOr(env, "OPENAI_MODEL", "gpt-5-turbo"),
      openaiApiKey := Getenv(env, "OPENAI_API_KEY"),
      llmMode := GetenvOr(env, "LLM_MODE", "auto"),
      topK := Int(Getenv(env, "TOP_K"), 6),
      maxTokens := Int(Getenv(env, "MAX_TOKENS"), 900),
      temperature := Float(Getenv(env, "TEMPERATURE"), 0.3, parseFloat),
      useOpenAIEmbeddings := Bool(Getenv(env, "USE_OPENAI_EMBEDDINGS"), false),
      embeddingModel := GetenvOr(env, "EMBEDDING_MODEL", "text-embedding-3-large"),
      embeddingsPath := GetenvOr(env, "EMBEDDINGS_PATH", "embeddings"),
      sourceDirs := SplitPaths(Getenv(env, "SOURCE_DIRS"), DefaultSourceDirs),
      supportedSuffixes := SupportedSuffixes,
      textSuffixes := TextSuffixes)
  }

  /** With an empty environment every field takes its documented default. */
  lemma {:induction false} LoadDefaults(parseFloat: string -> Option<real>)
    ensures Load(map[], parseFloat) == Settings(
      "gpt-5-turbo", None, "auto", 6, 900, 0.3, false,
      "text-embedding-3-large", "embeddings", DefaultSourceDirs, SupportedSuffixes, TextSuffixes)
  {
  }

  /** A numeric override of TOP_K is taken as written. */
  lemma {:induction false} LoadTopK(env: Env, parseFloat: string -> Option<real>, n: nat)
    requires "TOP_K" in env && env["TOP_K"] == NatToString(n)
    ensures Load(env, parseFloat).topK == n
  {
    IntOfRendering(n, 6);
  }
}
