/**
 * The ingestion bookkeeping of ingest_books.py: which files are ingested,
 * the key each file's records are stored under, the delete-then-add upsert
 * of one file's chunks, and the counters of a whole run.  Text extraction,
 * splitting and embedding are opaque: the file system hands over what each
 * parser would read, and the splitter and embedder are function parameters.
 */
module Ingest {
  import opened Wrappers
  import opened PyStr
  import opened Index

  /** A path as its components; `base + rel` is the path `rel` below `base`. */
  type Path = seq<string>

  /** `path.name`: the last component, "" for the empty path. */
  function Name(p: Path): string {
    if p == [] then "" else p[|p| - 1]
  }

  /** `s.rfind(c)`, with None for -1: the last index holding `c`. */
  function RFind(s: string, c: char): (r: Option<nat>)
    ensures r.Some? ==> r.value < |s| && s[r.value] == c && forall j :: r.value < j < |s| ==> s[j] != c
    ensures r.None? ==> Lacks(s, c)
  {
    if s == [] then None
    else if s[|s| - 1] == c then Some(|s| - 1)
    else RFind(s[..|s| - 1], c)
  }

  /**
   * `path.suffix`: from the last "." of the name to its end, when that dot is
   * neither the first nor the last character; "" otherwise.
   */
  function Suffix(name: string): (r: string)
    ensures r == [] || (r[0] == '.' && EndsWith(name, r) && |r| >= 2 && |r| < |name| && Lacks(r[1..], '.'))
  {
    match RFind(name, '.')
    case Some(i) =>
      if 0 < i < |name| - 1 then
        var r := name[i..];
        assert Lacks(r[1..], '.') by {
          forall j | 0 <= j < |r[1..]| ensures r[1..][j] != '.' {
            assert r[1..][j] == name[i + 1 + j];
          }
        }
        r
      else []
    case None => []
  }

  /** A name `stem.ext` with a non-empty stem and a dot-free, non-empty extension has suffix `.ext`. */
  lemma {:induction false} SuffixOfStem(stem: string, ext: string)
    requires stem != [] && ext != [] && Lacks(ext, '.')
    ensures Suffix(stem + "." + ext) == "." + ext
  {
    var name := stem + "." + ext;
    assert name[|stem|] == '.';
    forall j | |stem| < j < |name| ensures name[j] != '.' {
      assert name[j] == ext[j - |stem| - 1];
    }
    assert name[|stem|..] == "." + ext;
  }

  /** One path `rglob("*")` yields below a base directory, with whether it is a regular file. */
  datatype Listed = Listed(path: Path, isFile: bool)

  /** What each reader would return for a file. */
  datatype FileContent = FileContent(
    pdf: Option<string>,   // PyMuPDF's page texts joined by "\n"; None when parsing fails
    epub: Option<string>,  // the EPUB documents' bodies joined by "\n"; None when parsing fails
    text: Result<string>)  // `read_text`, with the lenient re-read folded in; Raised when reading fails

  /** The file system: the recursive listing of every existing directory, and file contents. */
  datatype FileSystem = FileSystem(walks: map<Path, seq<Listed>>, contents: map<Path, FileContent>) {
    function Content(p: Path): FileContent {
      if p in contents then contents[p] else FileContent(None, None, Raised)
    }
  }

  /** `path` lies strictly below the directory `base`. */
  predicate Below(path: Path, base: Path) {
    |base| < |path| && path[..|base|] == base
  }

  /** What `rglob` guarantees: every path listed for a directory lies below it. */
  predicate WalksBelow(fs: FileSystem) {
    forall b, l :: b in fs.walks && l in fs.walks[b] ==> Below(l.path, b)
  }

  /** `SUPPORTED_SUFFIXES` and `TEXT_SUFFIXES`: the configured suffixes, lowercased. */
  function LowerSet(xs: seq<string>): (r: set<string>)
    ensures forall x :: x in xs ==> Lower(x) in r
    ensures forall y :: y in r ==> exists x :: x in xs && Lower(x) == y
  {
    set x | x in xs :: Lower(x)
  }

  // ---------------------------------------------------------------------------
  // iter_source_files
  // ---------------------------------------------------------------------------

  /** A listed path is ingested when it is a file, its lowercased suffix is supported and its name is not hidden. */
  predicate IsCandidate(l: Listed, supported: set<string>) {
    l.isFile && Lower(Suffix(Name(l.path))) in supported && !StartsWith(Name(l.path), ".")
  }

  /** The candidates below one base directory, paired with it. */
  function Candidates(listing: seq<Listed>, base: Path, supported: set<string>): (r: seq<(Path, Path)>)
    ensures |r| <= |listing|
  {
    if listing == [] then []
    else
      var l := listing[|listing| - 1];
      Candidates(listing[..|listing| - 1], base, supported) + if IsCandidate(l, supported) then [(l.path, base)] else []
  }

  /** `iter_source_files(directories)`: directory by directory, the candidates of those that exist. */
  function SourceFiles(fs: FileSystem, dirs: seq<Path>, supported: set<string>): seq<(Path, Path)> {
    if dirs == [] then []
    else
      var base := dirs[|dirs| - 1];
      SourceFiles(fs, dirs[..|dirs| - 1], supported)
        + if base in fs.walks then Candidates(fs.walks[base], base, supported) else []
  }

  lemma {:induction false} CandidatesExact(listing: seq<Listed>, base: Path, supported: set<string>, p: Path, b: Path)
    ensures (p, b) in Candidates(listing, base, supported) <==>
      b == base && exists l :: l in listing && l.path == p && IsCandidate(l, supported)
    decreases |listing|
  {
    if listing != [] {
      var init, l := listing[..|listing| - 1], listing[|listing| - 1];
      CandidatesExact(init, base, supported, p, b);
      assert listing == init + [l];
    }
  }

  /**
   * A pair is yielded exactly when its base is one of the directories, that
   * directory exists, and the path is a candidate listed below it.
   */
  lemma {:induction false} SourceFilesExact(fs: FileSystem, dirs: seq<Path>, supported: set<string>, p: Path, b: Path)
    ensures (p, b) in SourceFiles(fs, dirs, supported) <==>
      b in dirs && b in fs.walks && exists l :: l in fs.walks[b] && l.path == p && IsCandidate(l, supported)
    decreases |dirs|
  {
    if dirs != [] {
      var init, base := dirs[..|dirs| - 1], dirs[|dirs| - 1];
      SourceFilesExact(fs, init, supported, p, b);
      assert dirs == init + [base];
      if base in fs.walks {
        CandidatesExact(fs.walks[base], base, supported, p, b);
      }
    }
  }

  /** A directory that does not exist contributes nothing. */
  lemma {:induction false} MissingDirectory(fs: FileSystem, dirs: seq<Path>, base: Path, supported: set<string>)
    requires base !in fs.walks
    ensures SourceFiles(fs, dirs + [base], supported) == SourceFiles(fs, dirs, supported)
  {
    assert (dirs + [base])[..|dirs|] == dirs;
  }

  // ---------------------------------------------------------------------------
  // extract_text, embed_chunks, source_key
  // ---------------------------------------------------------------------------

  /** `extract_text`: dispatch on the lowercased suffix; failing PDF/EPUB parsing and unknown suffixes give "". */
  function ExtractText(path: Path, content: FileContent, textSuffixes: set<string>): (r: Result<string>)
    ensures r.Raised? ==> Lower(Suffix(Name(path))) in textSuffixes && content.text.Raised?
    ensures Lower(Suffix(Name(path))) !in ({".pdf", ".epub"} + textSuffixes) ==> r == Ok("")
  {
    var suffix := Lower(Suffix(Name(path)));
    if suffix == ".pdf" then Ok(content.pdf.GetOr(""))
    else if suffix == ".epub" then Ok(content.epub.GetOr(""))
    else if suffix in textSuffixes then content.text
    else Ok("")
  }

  /** `embed_chunks`: no chunks need no backend call; otherwise the backend's vectors. */
  function EmbedChunks(chunks: seq<string>, embed: seq<string> -> seq<seq<real>>): (r: seq<seq<real>>)
    ensures chunks == [] ==> r == []
  {
    if chunks == [] then [] else embed(chunks)
  }

  /** `path.relative_to(base).as_posix()`; "." for the base itself. */
  function RelativePosix(rel: Path): string {
    if rel == [] then "." else Join("/", rel)
  }

  /** `source_key`: the base's name, "/", and the path below it; raises when the path is not below the base. */
  function SourceKey(path: Path, base: Path): (r: Result<string>)
    ensures r.Ok? <==> |base| <= |path| && path[..|base|] == base
    ensures r.Ok? ==> r.value != []
  {
    if |base| <= |path| && path[..|base|] == base then
      Ok(Name(base) + "/" + RelativePosix(path[|base|..]))
    else Raised
  }

  /** The key of a file directly below a base ends with its name. */
  lemma {:induction false} KeyOfDirectChild(base: Path, name: string)
    ensures SourceKey(base + [name], base) == Ok(Name(base) + "/" + name)
    ensures EndsWith(SourceKey(base + [name], base).value, name)
  {
    var path := base + [name];
    assert path[..|base|] == base;
    assert path[|base|..] == [name];
    var key := Name(base) + "/" + name;
    assert key[|key| - |name|..] == name;
  }

  /** Keys of files below one base differ when the files do. */
  lemma {:induction false} KeysDistinct(base: Path, rel1: Path, rel2: Path)
    requires rel1 != [] && rel2 != []
    requires forall k :: 0 <= k < |rel1| ==> Lacks(rel1[k], '/')
    requires forall k :: 0 <= k < |rel2| ==> Lacks(rel2[k], '/')
    requires SourceKey(base + rel1, base) == SourceKey(base + rel2, base)
    ensures rel1 == rel2
  {
    var p1, p2 := base + rel1, base + rel2;
    assert p1[..|base|] == base && p1[|base|..] == rel1;
    assert p2[..|base|] == base && p2[|base|..] == rel2;
    var head := Name(base) + "/";
    assert head + Join("/", rel1) == head + Join("/", rel2);
    assert Join("/", rel1) == (head + Join("/", rel1))[|head|..];
    assert Join("/", rel2) == (head + Join("/", rel2))[|head|..];
    assert "/" == ['/'];
    SplitJoinChar(rel1, '/');
    SplitJoinChar(rel2, '/');
  }

  // ---------------------------------------------------------------------------
  // ingest_file
  // ---------------------------------------------------------------------------

  /** `[{"source": src, "chunk": idx} for idx in range(n)]` */
  function ChunkMetadata(src: string, n: nat): (r: seq<Metadata>)
    ensures |r| == n && forall k :: 0 <= k < n ==> r[k] == Metadata(Some(src), Some(k))
  {
    seq(n, k requires 0 <= k < n => Metadata(Some(src), Some(k)))
  }

  /** `[f"{src}#{idx}" for idx in range(n)]` */
  function ChunkIds(src: string, n: nat): (r: seq<string>)
    ensures |r| == n && forall k :: 0 <= k < n ==> r[k] == src + "#" + NatToString(k)
  {
    seq(n, k requires 0 <= k < n => src + "#" + NatToString(k))
  }

  /** The records one file's chunks become. */
  function Records(src: string, chunks: seq<string>, embeddings: seq<seq<real>>): seq<Entry> {
    Zip(chunks, embeddings, ChunkMetadata(src, |chunks|), ChunkIds(src, |chunks|))
  }

  /** What `ingest_file` decides before touching the collection: raise, store nothing, or store `chunks` under `src`. */
  datatype Plan = Fails | Skip | Store(src: string, chunks: seq<string>)

  function PlanFor(path: Path, base: Path, content: FileContent, split: string -> seq<string>, textSuffixes: set<string>): (r: Plan)
    ensures r.Store? ==> r.chunks != [] && SourceKey(path, base) == Ok(r.src)
  {
    match ExtractText(path, content, textSuffixes)
    case Raised => Fails
    case Ok(text) =>
      if Strip(text) == "" || split(text) == [] then
        (if SourceKey(path, base).Raised? then Fails else Skip)
      else
        match SourceKey(path, base)
        case Raised => Fails
        case Ok(src) => Store(src, split(text))
  }

  /**
   * For a file below its base, `source_key` cannot raise, so the file fails
   * exactly when reading its text raises, which only an unreadable text file does.
   */
  lemma {:induction false} OnlyUnreadableFails(path: Path, base: Path, content: FileContent, split: string -> seq<string>, textSuffixes: set<string>)
    requires Below(path, base)
    ensures PlanFor(path, base, content, split, textSuffixes).Fails? <==> ExtractText(path, content, textSuffixes).Raised?
    ensures PlanFor(path, base, content, split, textSuffixes).Fails? ==>
      Lower(Suffix(Name(path))) in textSuffixes && content.text.Raised?
  {
  }

  /** The value `ingest_file` returns for a plan. */
  function Count(plan: Plan): Result<nat> {
    match plan
    case Fails => Raised
    case Skip => Ok(0)
    case Store(_, chunks) => Ok(|chunks|)
  }

  /** The collection's records after carrying out a plan. */
  function Stored(entries: seq<Entry>, plan: Plan, embed: seq<string> -> seq<seq<real>>): seq<Entry> {
    match plan
    case Store(src, chunks) => Without(entries, src) + Records(src, chunks, EmbedChunks(chunks, embed))
    case _ => entries
  }

  /** `ingest_file(path, base_dir, collection, splitter)` */
  method IngestFile(path: Path, base: Path, collection: FakeCollection, content: FileContent,
      split: string -> seq<string>, embed: seq<string> -> seq<seq<real>>, textSuffixes: set<string>)
    returns (r: Result<nat>)
    modifies collection
    ensures r == Count(PlanFor(path, base, content, split, textSuffixes))
    ensures collection.entries == Stored(old(collection.entries), PlanFor(path, base, content, split, textSuffixes), embed)
  {
    var extracted := ExtractText(path, content, textSuffixes);
    if extracted.Raised? {
      return Raised;
    }
    var text := extracted.value;
    if Strip(text) == "" {
      if SourceKey(path, base).Raised? {
        return Raised;
      }
      return Ok(0);
    }
    var chunks := split(text);
    if chunks == [] {
      if SourceKey(path, base).Raised? {
        return Raised;
      }
      return Ok(0);
    }
    var embeddings := EmbedChunks(chunks, embed);
    var key := SourceKey(path, base);
    if key.Raised? {
      return Raised;
    }
    var src := key.value;
    collection.Delete(Some(src));
    collection.Add(chunks, embeddings, ChunkMetadata(src, |chunks|), ChunkIds(src, |chunks|));
    r := Ok(|chunks|);
  }

  /** A blank text or an empty split stores nothing and returns 0 (unless the key itself raises). */
  lemma {:induction false} NothingToStore(path: Path, base: Path, content: FileContent, split: string -> seq<string>, textSuffixes: set<string>,
      text: string, entries: seq<Entry>, embed: seq<string> -> seq<seq<real>>)
    requires ExtractText(path, content, textSuffixes) == Ok(text)
    requires Strip(text) == "" || split(text) == []
    requires SourceKey(path, base).Ok?
    ensures PlanFor(path, base, content, split, textSuffixes) == Skip
    ensures Count(Skip) == Ok(0) && Stored(entries, Skip, embed) == entries
  {
  }

  /**
   * After storing, the records of `src` are exactly the new ones, in chunk
   * order, with ids `src#0 .. src#n-1` and chunk numbers `0 .. n-1`, and
   * every other source keeps its records.
   */
  lemma {:induction false} StoredRecords(entries: seq<Entry>, src: string, chunks: seq<string>, embed: seq<string> -> seq<seq<real>>, other: string)
    requires chunks != [] && |embed(chunks)| == |chunks|
    requires other != src
    ensures var after := Stored(entries, Store(src, chunks), embed);
      && |Of(after, src)| == |chunks|
      && (forall k :: 0 <= k < |chunks| ==> Of(after, src)[k] == Entry(chunks[k], embed(chunks)[k], Metadata(Some(src), Some(k)), src + "#" + NatToString(k)))
      && Of(after, other) == Of(entries, other)
  {
    var recs := Records(src, chunks, embed(chunks));
    var kept := Without(entries, src);
    OfAppend(kept, recs, src);
    OfNone(kept, src);
    OfAll(recs, src);
    OfAppend(kept, recs, other);
    OfWithout(entries, src, other);
    OfNone(recs, other);
    assert Of(kept, src) + recs == recs;
    assert Of(kept, other) + [] == Of(kept, other);
  }

  /** Ingesting the same file with the same chunks twice leaves the records of ingesting it once. */
  lemma {:induction false} IngestIdempotent(entries: seq<Entry>, plan: Plan, embed: seq<string> -> seq<seq<real>>)
    ensures Stored(Stored(entries, plan, embed), plan, embed) == Stored(entries, plan, embed)
  {
    if plan.Store? {
      var src := plan.src;
      var recs := Records(src, plan.chunks, EmbedChunks(plan.chunks, embed));
      var kept := Without(entries, src);
      WithoutAppend(kept, recs, src);
      WithoutTwice(entries, src);
      WithoutOwn(recs, src);
      assert Without(kept, src) + [] == kept;
    }
  }

  // ---------------------------------------------------------------------------
  // ingest_all
  // ---------------------------------------------------------------------------

  /** The dictionary `ingest_all` returns. */
  datatype Stats = Stats(files: nat, chunks: nat, scanned: nat)

  /** The plan of each file, in order. */
  function Plans(fs: FileSystem, files: seq<(Path, Path)>, split: string -> seq<string>, textSuffixes: set<string>): (r: seq<Plan>)
    ensures |r| == |files|
    ensures forall i :: 0 <= i < |files| ==> r[i] == PlanFor(files[i].0, files[i].1, fs.Content(files[i].0), split, textSuffixes)
  {
    seq(|files|, i requires 0 <= i < |files| => PlanFor(files[i].0, files[i].1, fs.Content(files[i].0), split, textSuffixes))
  }

  /** The files counted by `ingest_all`: those whose `ingest_file` returned a positive count. */
  function FilesStored(plans: seq<Plan>): nat {
    if plans == [] then 0
    else FilesStored(plans[..|plans| - 1]) + if plans[|plans| - 1].Store? then 1 else 0
  }

  /** The sum of those counts. */
  function ChunksStored(plans: seq<Plan>): nat {
    if plans == [] then 0
    else ChunksStored(plans[..|plans| - 1]) + match plans[|plans| - 1] case Store(_, c) => |c| case _ => 0
  }

  /** The records after ingesting the files of a run one after another. */
  function AfterRun(entries: seq<Entry>, plans: seq<Plan>, embed: seq<string> -> seq<seq<real>>): seq<Entry> {
    if plans == [] then entries
    else Stored(AfterRun(entries, plans[..|plans| - 1], embed), plans[|plans| - 1], embed)
  }

  /** The plans `PlanFor` produces store at least one chunk each. */
  predicate StoresChunks(plans: seq<Plan>) {
    forall k :: 0 <= k < |plans| ==> plans[k].Store? ==> plans[k].chunks != []
  }

  /** Every counted file stored at least one chunk, and no more files are counted than were scanned. */
  lemma {:induction false} CountersBounded(plans: seq<Plan>)
    requires StoresChunks(plans)
    ensures FilesStored(plans) <= |plans|
    ensures FilesStored(plans) <= ChunksStored(plans)
    decreases |plans|
  {
    if plans != [] {
      CountersBounded(plans[..|plans| - 1]);
    }
  }

  /** A file that raises or stores nothing changes neither counter nor the records, and the run goes on. */
  lemma {:induction false} NothingCounted(entries: seq<Entry>, plans: seq<Plan>, p: Plan, embed: seq<string> -> seq<seq<real>>)
    requires !p.Store?
    ensures FilesStored(plans + [p]) == FilesStored(plans)
    ensures ChunksStored(plans + [p]) == ChunksStored(plans)
    ensures AfterRun(entries, plans + [p], embed) == AfterRun(entries, plans, embed)
  {
    assert (plans + [p])[..|plans|] == plans;
  }

  /** One more file of a run: the counters and records advance by that file's plan. */
  lemma {:induction false} RunStep(entries: seq<Entry>, plans: seq<Plan>, i: nat, embed: seq<string> -> seq<seq<real>>)
    requires i < |plans|
    ensures FilesStored(plans[..i + 1]) == FilesStored(plans[..i]) + if plans[i].Store? then 1 else 0
    ensures ChunksStored(plans[..i + 1]) == ChunksStored(plans[..i]) + if plans[i].Store? then |plans[i].chunks| else 0
    ensures AfterRun(entries, plans[..i + 1], embed) == Stored(AfterRun(entries, plans[..i], embed), plans[i], embed)
  {
    assert plans[..i + 1][..i] == plans[..i];
  }

  /** A positive count is reported exactly for a stored file, and it is the number of its chunks. */
  lemma {:induction false} CountOfPlan(plan: Plan)
    requires plan.Store? ==> plan.chunks != []
    ensures (Count(plan).Ok? && Count(plan).value > 0) == plan.Store?
    ensures plan.Store? ==> Count(plan).value == |plan.chunks|
  {
  }

  /** The loop of `ingest_all` over the candidate files, a raising file being skipped. */
  method IngestFiles(files: seq<(Path, Path)>, collection: FakeCollection, fs: FileSystem,
      split: string -> seq<string>, embed: seq<string> -> seq<seq<real>>, textSuffixes: set<string>)
    returns (totalFiles: nat, totalChunks: nat)
    modifies collection
    ensures var plans := Plans(fs, files, split, textSuffixes);
      && totalFiles == FilesStored(plans) && totalChunks == ChunksStored(plans)
      && collection.entries == AfterRun(old(collection.entries), plans, embed)
  {
    ghost var plans := Plans(fs, files, split, textSuffixes);
    ghost var before := collection.entries;
    totalFiles, totalChunks := 0, 0;
    var i := 0;
    while i < |files|
      invariant 0 <= i <= |files|
      invariant totalFiles == FilesStored(plans[..i]) && totalChunks == ChunksStored(plans[..i])
      invariant collection.entries == AfterRun(before, plans[..i], embed)
    {
      var path, base := files[i].0, files[i].1;
      ghost var plan := plans[i];
      ghost var prev := collection.entries;
      assert plan == PlanFor(path, base, fs.Content(path), split, textSuffixes);
      RunStep(before, plans, i, embed);
      var count := IngestFile(path, base, collection, fs.Content(path), split, embed, textSuffixes);
      assert collection.entries == Stored(prev, plan, embed);
      CountOfPlan(plan);
      if count.Ok? && count.value > 0 {
        totalFiles := totalFiles + 1;
        totalChunks := totalChunks + count.value;
      }
      assert totalFiles == FilesStored(plans[..i + 1]) && totalChunks == ChunksStored(plans[..i + 1]);
      assert collection.entries == AfterRun(before, plans[..i + 1], embed);
      i := i + 1;
    }
    assert plans[..i] == plans;
  }

  /**
   * `ingest_all`: the directories given, or the configured ones when none
   * are; the shared "josef_knowledge" collection of `client`; one
   * `ingest_file` per candidate file.
   */
  method IngestAll(sourceDirs: seq<Path>, defaultDirs: seq<Path>, supportedSuffixes: seq<string>, textSuffixes: seq<string>,
      client: FakeClient, fs: FileSystem, split: string -> seq<string>, embed: seq<string> -> seq<seq<real>>)
    returns (stats: Stats, collection: FakeCollection)
    requires client.registry.Valid()
    requires WalksBelow(fs)
    modifies client.registry, client.registry.collections.Values
    ensures client.registry.Valid()
    ensures client.registry.collections.Keys == old(client.registry.collections).Keys + {(client.path, "josef_knowledge")}
    ensures forall k :: k in old(client.registry.collections) && k != (client.path, "josef_knowledge") ==>
      && client.registry.collections[k] == old(client.registry.collections[k])
      && client.registry.collections[k].entries == old(client.registry.collections[k].entries)
    ensures (client.path, "josef_knowledge") in client.registry.collections
    ensures collection == client.registry.collections[(client.path, "josef_knowledge")]
    ensures var files := SourceFiles(fs, if sourceDirs == [] then defaultDirs else sourceDirs, LowerSet(supportedSuffixes));
      var plans := Plans(fs, files, split, LowerSet(textSuffixes));
      var before := if (client.path, "josef_knowledge") in old(client.registry.collections)
        then old(client.registry.collections[(client.path, "josef_knowledge")].entries) else [];
      && stats == Stats(FilesStored(plans), ChunksStored(plans), |files|)
      && collection.entries == AfterRun(before, plans, embed)
    ensures stats.files <= stats.scanned && stats.files <= stats.chunks
  {
    var directories := if sourceDirs == [] then defaultDirs else sourceDirs;
    collection := client.GetOrCreateCollection("josef_knowledge");
    var files := SourceFiles(fs, directories, LowerSet(supportedSuffixes));
    if files == [] {
      return Stats(0, 0, 0), collection;
    }
    var totalFiles, totalChunks := IngestFiles(files, collection, fs, split, embed, LowerSet(textSuffixes));
    stats := Stats(totalFiles, totalChunks, |files|);
    CountersBounded(Plans(fs, files, split, LowerSet(textSuffixes)));
  }
}
