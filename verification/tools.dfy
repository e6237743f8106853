/**
 * The agent's three tools and their dispatcher. The collection, the
 * embedder, the vector store, the cross-encoder, the web search engine and
 * the file writer are parameters of the tool set (`Env`); what the tools
 * compute from their answers is modelled exactly.
 */
module Tools {
  import opened Prelude
  import opened Text
  import Paths
  import Ranking

  // ---------------------------------------------------------------------------
  // Fixed strings and limits
  // ---------------------------------------------------------------------------

  const DbNotInitialized: string := "Error: Database not initialized."
  const NoEmbedding: string := "Error: Could not generate embedding for query."
  const QueryErrorPrefix: string := "Error querying database: "
  const NoRelevantInfo: string := "No relevant information found in knowledge base."
  const PlainSeparator: string := "\n\n"
  const RankedSeparator: string := "\n\n---\n\n"
  const NoWebResults: string := "No results found on the web."
  const WebErrorPrefix: string := "Error performing web search: "
  const SavedPrefix: string := "File saved successfully: "
  const SaveErrorPrefix: string := "Error saving file: "

  /** How many nearest neighbours the store is asked for. */
  const CandidateCount: nat := 10
  /** How many results the web search engine is asked for. */
  const MaxWebResults: nat := 5
  /** How many candidates the fallback keeps. */
  const FallbackCount: nat := 3

  /** The output directory used when the environment sets none. */
  const DefaultOutputDir: string := "./output"

  const RetrieveName: string := "retrieve_knowledge"
  const WebSearchName: string := "web_search"
  const SaveName: string := "save_solution"

  // ---------------------------------------------------------------------------
  // External services
  // ---------------------------------------------------------------------------

  /** An embedding vector; the empty vector is how the embedder reports failure. */
  type Embedding = seq<int>

  /** Files by path. */
  type FileSystem = map<string, string>

  /** A nearest-neighbour query either raises or returns one list of documents per query vector. */
  datatype QueryOutcome = QueryRaised(error: string) | QueryResult(documents: seq<seq<string>>)

  /**
   * The cross-encoder: absent (it failed to load), or present with a score
   * per (query, passage) pair and a report of when scoring a batch raises.
   */
  datatype Reranker =
    | NoReranker
    | CrossEncoder(score: (string, string) -> int, raises: (string, seq<string>) -> bool)

  /** One web result; `None` is a missing key. */
  datatype Hit = Hit(title: Option<string>, href: Option<string>, body: Option<string>)

  datatype SearchOutcome = SearchRaised(error: string) | Hits(hits: seq<Hit>)

  /**
   * The tool set's environment. `connected` is false when the store could
   * not be opened; `writeFault(path)` is the error that writing `path` raises.
   */
  datatype Env = Env(
    connected: bool,
    embed: string -> Embedding,
    store: (Embedding, nat) -> QueryOutcome,
    reranker: Reranker,
    search: (string, nat) -> SearchOutcome,
    outputDir: string,
    writeFault: string -> Option<string>)

  // ---------------------------------------------------------------------------
  // retrieve_knowledge
  // ---------------------------------------------------------------------------

  /** The first `FallbackCount` candidates in retrieval order. */
  function Leading(candidates: seq<string>): (r: seq<string>)
    ensures |r| == Min(FallbackCount, |candidates|)
    ensures forall i :: 0 <= i < |r| ==> r[i] == candidates[i]
  {
    candidates[..Min(FallbackCount, |candidates|)]
  }

  /** The reranker is present and scoring this batch does not raise. */
  predicate RerankSucceeds(reranker: Reranker, query: string, candidates: seq<string>) {
    reranker.CrossEncoder? && !reranker.raises(query, candidates)
  }

  /** What is made of a non-empty candidate list: reranked top passages, or the plain fallback. */
  function Passages(query: string, candidates: seq<string>, reranker: Reranker): (r: string)
    ensures !RerankSucceeds(reranker, query, candidates) ==> r == Join(Leading(candidates), PlainSeparator)
    ensures RerankSucceeds(reranker, query, candidates) ==>
              r == Join(Ranking.TopPassages(query, candidates, reranker.score), RankedSeparator)
  {
    if RerankSucceeds(reranker, query, candidates) then
      Join(Ranking.TopPassages(query, candidates, reranker.score), RankedSeparator)
    else
      Join(Leading(candidates), PlainSeparator)
  }

  /** The store found nothing: no document lists, or an empty first list. */
  predicate NothingFound(documents: seq<seq<string>>) {
    documents == [] || documents[0] == []
  }

  /** `ToolSet.retrieve_knowledge`. */
  function Retrieve(env: Env, query: string): (r: string)
    ensures !env.connected ==> r == DbNotInitialized
    ensures env.connected && env.embed(query) == [] ==> r == NoEmbedding
    ensures env.connected && env.embed(query) != [] ==>
              match env.store(env.embed(query), CandidateCount)
              case QueryRaised(e) => r == QueryErrorPrefix + e
              case QueryResult(docs) =>
                (NothingFound(docs) ==> r == NoRelevantInfo)
                && (!NothingFound(docs) ==> r == Passages(query, docs[0], env.reranker))
  {
    if !env.connected then DbNotInitialized
    else
      var vector := env.embed(query);
      if vector == [] then NoEmbedding
      else match env.store(vector, CandidateCount)
        case QueryRaised(e) => QueryErrorPrefix + e
        case QueryResult(docs) =>
          if NothingFound(docs) then NoRelevantInfo
          else Passages(query, docs[0], env.reranker)
  }

  /**
   * When the query cannot be embedded the store and the reranker are never
   * consulted: any other store or reranker gives the same answer.
   */
  lemma EmbeddingFailureSkipsStore(env: Env, query: string,
                                   store: (Embedding, nat) -> QueryOutcome, reranker: Reranker)
    requires env.embed(query) == []
    ensures Retrieve(env.(store := store, reranker := reranker), query) == Retrieve(env, query)
    ensures env.connected ==> Retrieve(env, query) == NoEmbedding
  {
  }

  /** A reranker that raises yields exactly what no reranker yields. */
  lemma FailingRerankerFallsBack(query: string, candidates: seq<string>,
                                 score: (string, string) -> int, raises: (string, seq<string>) -> bool)
    requires raises(query, candidates)
    ensures Passages(query, candidates, CrossEncoder(score, raises)) == Passages(query, candidates, NoReranker)
  {
  }

  /**
   * The successful reranked answer is at most three candidates joined by the
   * ranked separator; they are the best-scoring ones, in descending score
   * order with ties in retrieval order, and each appears verbatim.
   */
  lemma RerankedAnswer(query: string, candidates: seq<string>, reranker: Reranker)
    requires RerankSucceeds(reranker, query, candidates)
    ensures var top := Ranking.TopPassages(query, candidates, reranker.score);
            var ps := Ranking.TopPositions(query, candidates, reranker.score);
            && Passages(query, candidates, reranker) == Join(top, RankedSeparator)
            && |top| == |ps| == Min(Ranking.TopK, |candidates|)
            && Ranking.InRange(candidates, ps)
            && (forall i :: 0 <= i < |top| ==> top[i] == candidates[ps[i]])
            && Ranking.BestFirst(query, candidates, reranker.score, ps)
            && (forall i :: 0 <= i < |top| ==> Contains(Passages(query, candidates, reranker), top[i]))
  {
    var top := Ranking.TopPassages(query, candidates, reranker.score);
    forall i | 0 <= i < |top|
      ensures Contains(Passages(query, candidates, reranker), top[i])
    {
      JoinContainsPart(top, RankedSeparator, i);
    }
  }

  /**
   * The reranked answer is fixed by the scores alone: for any best-first
   * choice of `min(3, n)` candidates it is those candidates joined by the
   * ranked separator.
   */
  lemma RerankedAnswerOfBestFirst(query: string, candidates: seq<string>, reranker: Reranker, ps: seq<nat>)
    requires RerankSucceeds(reranker, query, candidates)
    requires |ps| == Min(Ranking.TopK, |candidates|) && Ranking.InRange(candidates, ps)
    requires Ranking.BestFirst(query, candidates, reranker.score, ps)
    ensures Passages(query, candidates, reranker)
            == Join(seq(|ps|, i requires 0 <= i < |ps| => candidates[ps[i]]), RankedSeparator)
  {
    var top := Ranking.TopPassages(query, candidates, reranker.score);
    var qs := Ranking.TopPositions(query, candidates, reranker.score);
    Ranking.BestFirstUnique(query, candidates, reranker.score, ps, qs);
    assert top == seq(|ps|, i requires 0 <= i < |ps| => candidates[ps[i]]);
  }

  /** The fallback answer contains each of the leading candidates verbatim. */
  lemma FallbackAnswer(query: string, candidates: seq<string>, reranker: Reranker, i: nat)
    requires !RerankSucceeds(reranker, query, candidates)
    requires i < Min(FallbackCount, |candidates|)
    ensures Contains(Passages(query, candidates, reranker), candidates[i])
  {
    JoinContainsPart(Leading(candidates), PlainSeparator, i);
  }

  // ---------------------------------------------------------------------------
  // web_search
  // ---------------------------------------------------------------------------

  const NoTitle: string := "No Title"
  const NoUrl: string := "No URL"
  const NoContent: string := "No Content"

  const TitleLabel: string := "Title: "
  const UrlLabel: string := "\nURL: "
  const ContentLabel: string := "\nContent: "

  /** The three fields of a rendered result. */
  datatype Fields = Fields(title: string, url: string, content: string)

  /** One result rendered as three labelled lines. */
  function Block(f: Fields): string {
    TitleLabel + (f.title + (UrlLabel + (f.url + (ContentLabel + f.content))))
  }

  /** A result's fields, with the defaults for missing keys. */
  function FieldsOf(h: Hit): (f: Fields)
    ensures h.title.None? ==> f.title == NoTitle
    ensures h.href.None? ==> f.url == NoUrl
    ensures h.body.None? ==> f.content == NoContent
    ensures h.title.Some? ==> f.title == h.title.value
    ensures h.href.Some? ==> f.url == h.href.value
    ensures h.body.Some? ==> f.content == h.body.value
  {
    Fields(h.title.GetOr(NoTitle), h.href.GetOr(NoUrl), h.body.GetOr(NoContent))
  }

  /** The rendered blocks, one per result, in result order. */
  function Blocks(hits: seq<Hit>): (r: seq<string>)
    ensures |r| == |hits|
    ensures forall i :: 0 <= i < |r| ==> r[i] == Block(FieldsOf(hits[i]))
  {
    seq(|hits|, i requires 0 <= i < |hits| => Block(FieldsOf(hits[i])))
  }

  /** `ToolSet.web_search`. */
  function WebSearch(env: Env, query: string): (r: string)
    ensures match env.search(query, MaxWebResults)
            case SearchRaised(e) => r == WebErrorPrefix + e
            case Hits(hits) =>
              (hits == [] ==> r == NoWebResults)
              && (hits != [] ==> r == Join(Blocks(hits), RankedSeparator))
  {
    match env.search(query, MaxWebResults)
    case SearchRaised(e) => WebErrorPrefix + e
    case Hits(hits) =>
      if hits == [] then NoWebResults
      else Join(Blocks(hits), RankedSeparator)
  }

  /** Index of the first `c` in `s`, or `|s|` when there is none. */
  function FindChar(s: string, c: char): (k: nat)
    ensures k <= |s|
    ensures forall i :: 0 <= i < k ==> s[i] != c
    ensures k < |s| ==> s[k] == c
  {
    if |s| == 0 then 0
    else if s[0] == c then 0
    else 1 + FindChar(s[1..], c)
  }

  /** Reads a rendered block back into its fields. */
  function ParseBlock(s: string): Option<Fields> {
    if !IsPrefix(TitleLabel, s) then None
    else
      var a := s[|TitleLabel|..];
      var i := FindChar(a, '\n');
      var b := a[i..];
      if !IsPrefix(UrlLabel, b) then None
      else
        var c := b[|UrlLabel|..];
        var j := FindChar(c, '\n');
        var d := c[j..];
        if !IsPrefix(ContentLabel, d) then None
        else Some(Fields(a[..i], c[..j], d[|ContentLabel|..]))
  }

  /** Cutting a concatenation where its first part ends. */
  lemma Cut(x: string, y: string)
    ensures (x + y)[|x|..] == y && (x + y)[..|x|] == x && IsPrefix(x, x + y)
  {
  }

  /** The first `c` of `x + y` is the first character of `y` when `x` has none. */
  lemma FindCharAfter(x: string, y: string, c: char)
    requires c !in x && |y| > 0 && y[0] == c
    ensures FindChar(x + y, c) == |x|
  {
    forall i | 0 <= i < |x| ensures (x + y)[i] != c {
      assert x[i] in x;
    }
    assert (x + y)[|x|] == c;
  }

  /** A needle found inside a block is found inside any string the block occurs in. */
  lemma OccursWithin(needle: string, block: string, s: string, at: nat, off: nat)
    requires OccursAt(block, s, at) && OccursAt(needle, block, off)
    ensures OccursAt(needle, s, at + off)
  {
    assert s[at .. at + |block|] == block;
    forall k | 0 <= k < |needle| ensures s[at + off + k] == needle[k] {
      assert needle[k] == block[off .. off + |needle|][k] == block[off + k];
      assert block[off + k] == s[at .. at + |block|][off + k] == s[at + off + k];
    }
  }

  /**
   * A block is read back to the fields it was rendered from, provided the
   * title and URL are single lines (the content may span lines).
   */
  lemma ParseBlockOfBlock(f: Fields)
    requires '\n' !in f.title && '\n' !in f.url
    ensures ParseBlock(Block(f)) == Some(f)
  {
    var d := ContentLabel + f.content;
    var c := f.url + d;
    var b := UrlLabel + c;
    var a := f.title + b;
    var s := TitleLabel + a;
    assert s == Block(f);
    Cut(TitleLabel, a);
    FindCharAfter(f.title, b, '\n');
    Cut(f.title, b);
    Cut(UrlLabel, c);
    FindCharAfter(f.url, d, '\n');
    Cut(f.url, d);
    Cut(ContentLabel, f.content);
  }

  /** Whatever parses as a block is the rendering of what it parses to. */
  lemma BlockOfParseBlock(s: string)
    requires ParseBlock(s).Some?
    ensures Block(ParseBlock(s).value) == s
    ensures '\n' !in ParseBlock(s).value.title && '\n' !in ParseBlock(s).value.url
  {
    ParsedBlockRebuilds(s);
    ParsedFieldsSingleLine(s);
  }

  /** A string starting with a label is the label followed by the rest. */
  lemma LabelSplit(prefix: string, s: string)
    requires IsPrefix(prefix, s)
    ensures s == prefix + s[|prefix|..]
  {
  }

  /** A string is its part before a position followed by its part from there. */
  lemma PositionSplit(s: string, i: nat)
    requires i <= |s|
    ensures s == s[..i] + s[i..]
  {
  }

  lemma ParsedBlockRebuilds(s: string)
    requires ParseBlock(s).Some?
    ensures Block(ParseBlock(s).value) == s
  {
    var a := s[|TitleLabel|..];
    var i := FindChar(a, '\n');
    var b := a[i..];
    var c := b[|UrlLabel|..];
    var j := FindChar(c, '\n');
    var d := c[j..];
    var f := ParseBlock(s).value;
    assert f == Fields(a[..i], c[..j], d[|ContentLabel|..]);
    LabelSplit(ContentLabel, d);
    PositionSplit(c, j);
    LabelSplit(UrlLabel, b);
    PositionSplit(a, i);
    LabelSplit(TitleLabel, s);
    assert s == TitleLabel + (f.title + (UrlLabel + (f.url + (ContentLabel + f.content))));
  }

  lemma ParsedFieldsSingleLine(s: string)
    requires ParseBlock(s).Some?
    ensures '\n' !in ParseBlock(s).value.title && '\n' !in ParseBlock(s).value.url
  {
    var a := s[|TitleLabel|..];
    var i := FindChar(a, '\n');
    var c := a[i..][|UrlLabel|..];
    var j := FindChar(c, '\n');
    var f := ParseBlock(s).value;
    assert f.title == a[..i] && f.url == c[..j];
    forall k | 0 <= k < |f.title| ensures f.title[k] != '\n' {
      assert f.title[k] == a[k];
    }
    forall k | 0 <= k < |f.url| ensures f.url[k] != '\n' {
      assert f.url[k] == c[k];
    }
  }

  /** The title and URL of a block sit at fixed places in it. */
  lemma BlockFieldsOccur(f: Fields)
    ensures OccursAt(f.title, Block(f), |TitleLabel|)
    ensures OccursAt(f.url, Block(f), |TitleLabel| + |f.title| + |UrlLabel|)
  {
    var d := ContentLabel + f.content;
    var c := f.url + d;
    var b := UrlLabel + c;
    var a := f.title + b;
    Cut(TitleLabel, a);
    Cut(f.title, b);
    Cut(UrlLabel, c);
    Cut(f.url, d);
    var t := |TitleLabel|;
    var block := Block(f);
    assert block[t..][..|f.title|] == f.title;
    assert block[t .. t + |f.title|] == f.title;
    var u := t + |f.title| + |UrlLabel|;
    assert block[u..] == c;
    assert block[u..][..|f.url|] == f.url;
    assert block[u .. u + |f.url|] == f.url;
  }

  /**
   * Every web result is shown verbatim, with its title and URL, in the answer.
   */
  lemma WebAnswerShowsEveryHit(env: Env, query: string, i: nat)
    requires env.search(query, MaxWebResults).Hits?
    requires i < |env.search(query, MaxWebResults).hits|
    ensures var hit := env.search(query, MaxWebResults).hits[i];
            && Contains(WebSearch(env, query), Block(FieldsOf(hit)))
            && Contains(WebSearch(env, query), FieldsOf(hit).title)
            && Contains(WebSearch(env, query), FieldsOf(hit).url)
  {
    var hits := env.search(query, MaxWebResults).hits;
    var blocks := Blocks(hits);
    var r := WebSearch(env, query);
    var f := FieldsOf(hits[i]);
    JoinContainsPart(blocks, RankedSeparator, i);
    var at := PartOffset(blocks, RankedSeparator, i);
    assert OccursAt(Block(f), r, at);
    BlockFieldsOccur(f);
    OccursWithin(f.title, Block(f), r, at, |TitleLabel|);
    OccursWithin(f.url, Block(f), r, at, |TitleLabel| + |f.title| + |UrlLabel|);
  }

  // ---------------------------------------------------------------------------
  // save_solution
  // ---------------------------------------------------------------------------

  /** Where a file named `filename` is written: its basename inside the output directory. */
  function SavePath(outputDir: string, filename: string): string {
    Paths.PathJoin(outputDir, Paths.Basename(filename))
  }

  /** A tool's answer and the file system after it ran. */
  datatype Execution = Execution(result: string, fs: FileSystem)

  /** `ToolSet.save_solution`. */
  function Save(env: Env, fs: FileSystem, filename: string, content: string): (r: Execution)
    ensures var path := SavePath(env.outputDir, filename);
            && (env.writeFault(path).None? ==>
                  r.result == SavedPrefix + path && path in r.fs && r.fs[path] == content)
            && (env.writeFault(path).Some? ==>
                  r.result == SaveErrorPrefix + env.writeFault(path).value && r.fs == fs)
    ensures forall p :: p != SavePath(env.outputDir, filename) ==>
              (p in r.fs <==> p in fs) && (p in fs ==> r.fs[p] == fs[p])
  {
    var path := SavePath(env.outputDir, filename);
    match env.writeFault(path)
    case Some(e) => Execution(SaveErrorPrefix + e, fs)
    case None => Execution(SavedPrefix + path, fs[path := content])
  }

  /**
   * Sandboxing: the file lands directly inside the output directory, under
   * the basename of the requested name, whatever directories that name
   * tries to reach.
   */
  lemma SaveStaysInOutputDir(outputDir: string, filename: string)
    requires |outputDir| > 0 && outputDir[|outputDir| - 1] != Paths.Sep
    ensures SavePath(outputDir, filename) == outputDir + "/" + Paths.Basename(filename)
    ensures Paths.Basename(SavePath(outputDir, filename)) == Paths.Basename(filename)
  {
    Paths.JoinPlainName(outputDir, Paths.Basename(filename));
  }

  /** "../../etc/passwd" is written as "passwd" in the default output directory. */
  lemma TraversalIsDefused()
    ensures SavePath(DefaultOutputDir, "../../etc/passwd") == "./output/passwd"
  {
    Paths.BasenameAt("../../etc/passwd", 10);
    assert Paths.Basename("../../etc/passwd") == "passwd";
    SaveStaysInOutputDir(DefaultOutputDir, "../../etc/passwd");
  }

  /** Two successful saves to names with one basename: the second content wins. */
  lemma LastWriteWins(env: Env, fs: FileSystem, first: string, second: string, c1: string, c2: string)
    requires Paths.Basename(first) == Paths.Basename(second)
    requires env.writeFault(SavePath(env.outputDir, first)).None?
    ensures var path := SavePath(env.outputDir, second);
            var fs2 := Save(env, Save(env, fs, first, c1).fs, second, c2).fs;
            path in fs2 && fs2[path] == c2
  {
  }

  // ---------------------------------------------------------------------------
  // Arguments, schema and dispatch
  // ---------------------------------------------------------------------------

  /**
   * Decoded tool-call arguments: an object's string fields, or a JSON value
   * that is not an object (reading a key from it raises `error`).
   */
  datatype Args = ArgMap(fields: map<string, string>) | NotAMap(error: string)

  /** What the JSON decoder makes of an argument string. */
  datatype Decoded = DecodeError | Parsed(args: Args)

  /** Arguments that do not decode fall back to the empty object. */
  function ArgsOf(d: Decoded): (a: Args)
    ensures d.DecodeError? ==> a == ArgMap(map[])
    ensures d.Parsed? ==> a == d.args
  {
    match d
    case DecodeError => ArgMap(map[])
    case Parsed(a) => a
  }

  /** `args.get(key, "")`. */
  function Get(fields: map<string, string>, key: string): (v: string)
    ensures key in fields ==> v == fields[key]
    ensures key !in fields ==> v == ""
  {
    if key in fields then fields[key] else ""
  }

  /** A tool's name and its required argument names, as the schema declares them. */
  datatype ToolSpec = ToolSpec(name: string, required: seq<string>)

  /** `TOOLS_SCHEMA`, as offered to the model. */
  const ToolsSchema: seq<ToolSpec> := [
    ToolSpec(RetrieveName, ["query"]),
    ToolSpec(WebSearchName, ["query"]),
    ToolSpec(SaveName, ["filename", "content"])
  ]

  /** The names the schema declares. */
  predicate Declared(name: string) {
    exists i :: 0 <= i < |ToolsSchema| && ToolsSchema[i].name == name
  }

  /** The tools whose answers count as retrieved context. */
  predicate IsContextTool(name: string) {
    name == RetrieveName || name == WebSearchName
  }

  function UnknownTool(name: string): string {
    "Error: Unknown tool " + name
  }

  function ToolFailure(name: string, error: string): string {
    "Error executing tool " + name + ": " + error
  }

  /** `Agent._execute_tool`: runs the named tool on its arguments. */
  function Dispatch(env: Env, fs: FileSystem, name: string, args: Args): (r: Execution)
    ensures !Declared(name) ==> r == Execution(UnknownTool(name), fs)
    ensures Declared(name) && args.NotAMap? ==> r == Execution(ToolFailure(name, args.error), fs)
    ensures name != SaveName ==> r.fs == fs
    ensures name == RetrieveName && args.ArgMap? ==>
              r.result == Retrieve(env, Get(args.fields, "query"))
    ensures name == WebSearchName && args.ArgMap? ==>
              r.result == WebSearch(env, Get(args.fields, "query"))
    ensures name == SaveName && args.ArgMap? ==>
              r == Save(env, fs, Get(args.fields, "filename"), Get(args.fields, "content"))
  {
    assert Declared(name) <==> name in {RetrieveName, WebSearchName, SaveName} by {
      if name == RetrieveName { assert ToolsSchema[0].name == name; }
      if name == WebSearchName { assert ToolsSchema[1].name == name; }
      if name == SaveName { assert ToolsSchema[2].name == name; }
    }
    if name == RetrieveName || name == WebSearchName || name == SaveName then
      match args
      case NotAMap(e) => Execution(ToolFailure(name, e), fs)
      case ArgMap(m) =>
        if name == RetrieveName then Execution(Retrieve(env, Get(m, "query")), fs)
        else if name == WebSearchName then Execution(WebSearch(env, Get(m, "query")), fs)
        else Save(env, fs, Get(m, "filename"), Get(m, "content"))
    else Execution(UnknownTool(name), fs)
  }

  /** A tool's answer never depends on the files already present. */
  lemma DispatchResultIgnoresFiles(env: Env, fs: FileSystem, name: string, args: Args)
    ensures Dispatch(env, fs, name, args).result == Dispatch(env, map[], name, args).result
  {
  }

  /**
   * The dispatcher handles exactly the declared names: a name reaches a tool
   * (and so can fail inside it) if and only if the schema declares it.
   */
  lemma DispatchHandlesExactlyDeclared(env: Env, fs: FileSystem, name: string, error: string)
    ensures Dispatch(env, fs, name, NotAMap(error)).result == UnknownTool(name) <==> !Declared(name)
  {
    if Declared(name) {
      var r := Dispatch(env, fs, name, NotAMap(error));
      assert r.result[5] == ' ';
      assert UnknownTool(name)[5] == ':';
    }
  }

  /**
   * A tool only reads the arguments its schema entry declares: maps that
   * agree on those keys (present with one value, or both absent) dispatch alike.
   */
  lemma DispatchReadsOnlyDeclaredArgs(env: Env, fs: FileSystem, i: nat,
                                      m1: map<string, string>, m2: map<string, string>)
    requires i < |ToolsSchema|
    requires forall k :: k in ToolsSchema[i].required ==> Get(m1, k) == Get(m2, k)
    ensures Dispatch(env, fs, ToolsSchema[i].name, ArgMap(m1)) == Dispatch(env, fs, ToolsSchema[i].name, ArgMap(m2))
  {
    var spec := ToolsSchema[i];
    if i == 2 {
      assert "filename" in spec.required && "content" in spec.required;
    } else {
      assert "query" in spec.required;
    }
  }

  /** A missing argument is read as the empty string, e.g. an empty search query. */
  lemma MissingQueryIsEmpty(env: Env, fs: FileSystem)
    ensures Dispatch(env, fs, WebSearchName, ArgMap(map[])).result == WebSearch(env, "")
    ensures Dispatch(env, fs, RetrieveName, ArgMap(map[])).result == Retrieve(env, "")
  {
    assert Declared(WebSearchName) by { assert ToolsSchema[1].name == WebSearchName; }
    assert Declared(RetrieveName) by { assert ToolsSchema[0].name == RetrieveName; }
  }
}
