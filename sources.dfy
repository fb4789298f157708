/**
 * Static data sources: how `load_data_and_create_faiss` names, checks and registers each file,
 * and which retrieval tool `generate_tools` builds for each registered source.
 */
module Sources {
  import opened Wrappers
  import opened PathNames

  /** The loader options of one CSV source (`csv_args[name]`), values abstracted to strings. */
  type CsvOptions = map<string, string>

  /** The FAISS index built from one file. Loading, splitting and embedding are not modelled: the
      value records only what the index was built from. */
  datatype VectorStore = CsvIndex(path: string, options: CsvOptions) | PdfIndex(path: string)

  /** The two `ValueError`s of `load_data_and_create_faiss`. */
  datatype LoadError = MissingCsvArgs(fileName: string) | UnsupportedFormat(extension: string)

  function ErrorMessage(e: LoadError): string {
    match e
    case MissingCsvArgs(name) => "csv_args column for " + name + " not provided."
    case UnsupportedFormat(ext) =>
      "Unsupported file format: " + ext + ". Only .csv and .pdf files are supported."
  }

  /** The name a file is registered under: its basename without the last extension, lowered. */
  function SourceKey(path: string): string {
    Lower(SplitExt(Basename(path)).0)
  }

  /** The lowered last extension of a file, dot included ("" when it has none). */
  function Extension(path: string): string {
    Lower(SplitExt(Basename(path)).1)
  }

  /** The `csv_args` entry a CSV file needs: the one keyed by its name up to the first dot. */
  function CsvArgsKey(key: string): string {
    FirstSegment(key)
  }

  /** The source key and the extension split the lowered basename between them. */
  lemma SourceKeyParts(path: string)
    ensures SourceKey(path) + Extension(path) == Lower(Basename(path))
  {
    var parts := SplitExt(Basename(path));
    SplitExtSpec(Basename(path));
    LowerAppend(parts.0, parts.1);
  }

  /** The source key holds no '/' and is already lower case. */
  lemma SourceKeyShape(path: string)
    ensures '/' !in SourceKey(path) && Lower(SourceKey(path)) == SourceKey(path)
  {
    var name := Basename(path);
    var stem := SplitExt(name).0;
    BasenameSpec(path);
    SplitExtSpec(name);
    assert Lower(Lower(stem)) == Lower(stem);
    forall i | 0 <= i < |stem| ensures SourceKey(path)[i] != '/' {
      assert stem[i] == name[i];
    }
  }

  /** The extension is empty, or one dot followed by no other dot. */
  lemma ExtensionShape(path: string)
    ensures Extension(path) == [] || (Extension(path)[0] == '.' && '.' !in Extension(path)[1..])
  {
    var ext := SplitExt(Basename(path)).1;
    SplitExtSpec(Basename(path));
    if ext != [] {
      forall i | 1 <= i < |ext| ensures Extension(path)[i] != '.' {
        assert ext[i] in ext[1..];
      }
    }
  }

  /** One pass of the loop in `load_data_and_create_faiss`: the key and index for `path`, or the
      error it raises. `csvArgs` is `csv_args or {}`. */
  function IngestFile(path: string, csvArgs: map<string, CsvOptions>): (r: Result<(string, VectorStore), LoadError>)
    ensures r.Success? ==> r.value.0 == SourceKey(path) && r.value.1.path == path
  {
    var key := SourceKey(path);
    var extension := Extension(path);
    if extension == ".csv" then
      var lookup := CsvArgsKey(key);
      if lookup !in csvArgs || csvArgs[lookup] == map[] then Failure(MissingCsvArgs(key))
      else Success((key, CsvIndex(path, csvArgs[lookup])))
    else if extension == ".pdf" then
      Success((key, PdfIndex(path)))
    else
      Failure(UnsupportedFormat(extension))
  }

  /** A file is accepted exactly when it is a PDF, or a CSV whose `csv_args` entry is present and
      not empty; otherwise the error names the lowered extension or the lowered file name. */
  lemma IngestFileOutcome(path: string, csvArgs: map<string, CsvOptions>)
    ensures var lookup := CsvArgsKey(SourceKey(path));
      IngestFile(path, csvArgs).Success?
      <==> Extension(path) == ".pdf"
           || (Extension(path) == ".csv" && lookup in csvArgs && csvArgs[lookup] != map[])
    ensures Extension(path) !in {".csv", ".pdf"}
      ==> IngestFile(path, csvArgs) == Failure(UnsupportedFormat(Extension(path)))
    ensures Extension(path) == ".csv" && IngestFile(path, csvArgs).Failure?
      ==> IngestFile(path, csvArgs) == Failure(MissingCsvArgs(SourceKey(path)))
  {
  }

  /** Names are compared without regard to case: two paths whose basenames agree once lowered
      get the same key and the same verdict. */
  lemma IngestCaseInsensitive(p: string, q: string, csvArgs: map<string, CsvOptions>)
    requires Lower(Basename(p)) == Lower(Basename(q))
    ensures SourceKey(p) == SourceKey(q) && Extension(p) == Extension(q)
    ensures IngestFile(p, csvArgs).Success? == IngestFile(q, csvArgs).Success?
  {
    SplitExtLower(Basename(p));
    SplitExtLower(Basename(q));
  }

  /** `self.vectorstores`: a dict, so iteration follows first insertion. */
  datatype SourceDict = SourceDict(order: seq<string>, entries: map<string, VectorStore>) {

    ghost predicate Valid() {
      && (forall i, j :: 0 <= i < j < |order| ==> order[i] != order[j])
      && (forall k :: k in entries <==> k in order)
    }

    /** `d[key] = store`: a new key goes last; an existing key keeps its place and its store is
        replaced. */
    function Put(key: string, store: VectorStore): (d: SourceDict)
      ensures d.entries == entries[key := store]
      ensures |order| <= |d.order| && d.order[..|order|] == order
    {
      SourceDict(if key in entries then order else order + [key], entries[key := store])
    }
  }

  /** Assignment keeps the order free of repeats and in step with the keys. */
  lemma PutValid(d: SourceDict, key: string, store: VectorStore)
    requires d.Valid()
    ensures d.Put(key, store).Valid()
  {
  }

  /** What one pass of the loop makes of a file. */
  type Ingested = Result<(string, VectorStore), LoadError>

  /** What the loop of `load_data_and_create_faiss` makes of each file, in order. */
  function IngestAll(paths: seq<string>, csvArgs: map<string, CsvOptions>): (results: seq<Ingested>)
    ensures |results| == |paths|
  {
    seq(|paths|, i requires 0 <= i < |paths| => IngestFile(paths[i], csvArgs))
  }

  /** The whole loop of `load_data_and_create_faiss` over the per-file results: the sources
      registered, and whether a `ValueError` stopped the loop. */
  function LoadAll(d: SourceDict, results: seq<Ingested>): (SourceDict, Outcome<LoadError>)
    decreases |results|
  {
    if results == [] then (d, Pass)
    else match results[0]
      case Failure(e) => (d, Fail(e))
      case Success((key, store)) => LoadAll(d.Put(key, store), results[1..])
  }

  /** Loading keeps the dict's order free of repeats and in step with its keys. */
  lemma {:induction false} LoadAllValid(d: SourceDict, results: seq<Ingested>)
    requires d.Valid()
    ensures LoadAll(d, results).0.Valid()
    decreases |results|
  {
    if results != [] && results[0].Success? {
      PutValid(d, results[0].value.0, results[0].value.1);
      LoadAllValid(d.Put(results[0].value.0, results[0].value.1), results[1..]);
    }
  }

  /** The keys the accepted files are registered under. */
  ghost function KeysOf(results: seq<Ingested>): set<string> {
    set i | 0 <= i < |results| && results[i].Success? :: results[i].value.0
  }

  /** Loading succeeds exactly when every file is accepted. */
  lemma {:induction false} LoadAllPasses(d: SourceDict, results: seq<Ingested>)
    ensures LoadAll(d, results).1.Pass? <==> forall i :: 0 <= i < |results| ==> results[i].Success?
    decreases |results|
  {
    if results != [] && results[0].Success? {
      var rest := results[1..];
      LoadAllPasses(d.Put(results[0].value.0, results[0].value.1), rest);
      assert forall i :: 1 <= i < |results| ==> results[i] == rest[i - 1];
    }
  }

  /** An accepted file in front of the results moves their first error one place on, and what
      was registered before it grows by that file. */
  lemma FirstErrorShift(d: SourceDict, results: seq<Ingested>, k: nat, e: LoadError, before: SourceDict)
    requires results != [] && results[0].Success?
    requires k + 1 < |results|
    requires forall i :: 0 <= i < k ==> results[1..][i].Success?
    requires results[1..][k] == Failure(e)
    requires before == LoadAll(d.Put(results[0].value.0, results[0].value.1), results[1..][..k]).0
    ensures forall i :: 0 <= i < k + 1 ==> results[i].Success?
    ensures results[k + 1] == Failure(e)
    ensures before == LoadAll(d, results[..k + 1]).0
  {
    var prefix := results[..k + 1];
    assert prefix[0] == results[0] && prefix[1..] == results[1..][..k];
    forall i | 1 <= i < k + 1 ensures results[i].Success? {
      assert results[i] == results[1..][i - 1];
    }
  }

  /** A failed load stops at the first file that is not accepted and raises its error; the files
      before it stay registered. */
  lemma {:induction false} LoadAllStopsAtFirstError(d: SourceDict, results: seq<Ingested>)
    requires LoadAll(d, results).1.Fail?
    ensures exists k :: && 0 <= k < |results|
                        && (forall i :: 0 <= i < k ==> results[i].Success?)
                        && results[k] == Failure(LoadAll(d, results).1.error)
                        && LoadAll(d, results).0 == LoadAll(d, results[..k]).0
    decreases |results|
  {
    var failure := LoadAll(d, results);
    if results[0].Failure? {
      assert results[..0] == [];
      assert failure.0 == LoadAll(d, results[..0]).0;
    } else {
      var next := d.Put(results[0].value.0, results[0].value.1);
      assert failure == LoadAll(next, results[1..]);
      LoadAllStopsAtFirstError(next, results[1..]);
      var k :| 0 <= k < |results[1..]|
        && (forall i :: 0 <= i < k ==> results[1..][i].Success?)
        && results[1..][k] == Failure(failure.1.error)
        && failure.0 == LoadAll(next, results[1..][..k]).0;
      FirstErrorShift(d, results, k, failure.1.error, failure.0);
    }
  }

  /** After a successful load the registered keys are the earlier ones and those of the files,
      and the earlier sources keep their place in the iteration order. */
  lemma {:induction false} LoadAllKeys(d: SourceDict, results: seq<Ingested>)
    requires forall i :: 0 <= i < |results| ==> results[i].Success?
    ensures var after := LoadAll(d, results).0;
      && after.entries.Keys == d.entries.Keys + KeysOf(results)
      && |d.order| <= |after.order| && after.order[..|d.order|] == d.order
    decreases |results|
  {
    if results != [] {
      var key, store := results[0].value.0, results[0].value.1;
      var rest := results[1..];
      var next := d.Put(key, store);
      LoadAllKeys(next, rest);
      var after := LoadAll(d, results).0;
      assert after == LoadAll(next, rest).0;
      assert KeysOf(results) == {key} + KeysOf(rest) by {
        forall k | k in KeysOf(results) ensures k in {key} + KeysOf(rest) {
          var i :| 0 <= i < |results| && results[i].Success? && k == results[i].value.0;
          if i > 0 { assert rest[i - 1] == results[i]; }
        }
        forall k | k in KeysOf(rest) ensures k in KeysOf(results) {
          var i :| 0 <= i < |rest| && rest[i].Success? && k == rest[i].value.0;
          assert results[i + 1] == rest[i];
        }
      }
      assert |d.order| <= |next.order| <= |after.order|;
      assert after.order[..|next.order|] == next.order;
      assert after.order[..|d.order|] == next.order[..|d.order|];
    }
  }

  /** After a successful load each key holds the index of the last file registered under it, and
      every source no file names keeps its index. */
  lemma {:induction false} LoadAllLastWins(d: SourceDict, results: seq<Ingested>)
    requires forall i :: 0 <= i < |results| ==> results[i].Success?
    ensures var after := LoadAll(d, results).0;
      && (forall i :: 0 <= i < |results| && (forall j :: i < j < |results| ==> results[j].value.0 != results[i].value.0)
            ==> results[i].value.0 in after.entries && after.entries[results[i].value.0] == results[i].value.1)
      && (forall k :: k in d.entries && k !in KeysOf(results) ==> k in after.entries && after.entries[k] == d.entries[k])
    decreases |results|
  {
    if results != [] {
      var key, store := results[0].value.0, results[0].value.1;
      var rest := results[1..];
      var next := d.Put(key, store);
      LoadAllLastWins(next, rest);
      LoadAllKeys(next, rest);
      var after := LoadAll(d, results).0;
      assert after == LoadAll(next, rest).0;
      forall i | 0 <= i < |results| && (forall j :: i < j < |results| ==> results[j].value.0 != results[i].value.0)
        ensures results[i].value.0 in after.entries && after.entries[results[i].value.0] == results[i].value.1
      {
        if i == 0 {
          assert key !in KeysOf(rest) by {
            forall m | 0 <= m < |rest| ensures rest[m].value.0 != key {
              assert rest[m] == results[m + 1];
            }
          }
        } else {
          assert results[i] == rest[i - 1];
          assert forall j :: i - 1 < j < |rest| ==> rest[j] == results[j + 1];
        }
      }
      forall k | k in d.entries && k !in KeysOf(results)
        ensures k in after.entries && after.entries[k] == d.entries[k]
      {
        forall m | 0 <= m < |rest| ensures rest[m].value.0 != k {
          assert results[m + 1] == rest[m];
        }
      }
    }
  }

  /** The results of the files name the keys and indexes that `IngestFile` gives them. */
  lemma IngestAllAt(paths: seq<string>, csvArgs: map<string, CsvOptions>, i: nat)
    requires i < |paths|
    ensures IngestAll(paths, csvArgs)[i] == IngestFile(paths[i], csvArgs)
    ensures IngestAll(paths, csvArgs)[i].Success? ==>
      IngestAll(paths, csvArgs)[i].value.0 == SourceKey(paths[i])
  {
  }

  const DefaultToolDescription := "Default tool description"
  const DefaultSystemPrompt := "You are a helpful assistant."

  /** The retrieval chain behind a tool: retrieve context for the input's `contextKey` field from
      one source, fill the review prompt under this system prompt, ask the LLM. */
  datatype ReviewChain = ReviewChain(contextKey: string, retriever: VectorStore, systemPrompt: string)

  /** A tool the agent may call, built by `create_tool`. */
  datatype Tool = Tool(name: string, description: string, chain: ReviewChain)

  /** `m.get(key, default)`. */
  function GetOr(m: map<string, string>, key: string, default: string): string {
    if key in m then m[key] else default
  }

  /** `create_tool`: the tool named `name`, described by `description`, running `chain`. */
  function CreateTool(chain: ReviewChain, name: string, description: string): Tool {
    Tool(name, description, chain)
  }

  /** The tool one pass of `generate_tools` builds for the source `key`: a review chain over its
      index under the configured system prompt, handed to `create_tool` with the source's name and
      the configured description. */
  function ToolFor(key: string, store: VectorStore, contextKey: string,
                   toolData: map<string, string>, toolSystemPrompts: map<string, string>): Tool
  {
    var chain := ReviewChain(contextKey, store, GetOr(toolSystemPrompts, key, DefaultSystemPrompt));
    CreateTool(chain, key, GetOr(toolData, key, DefaultToolDescription))
  }

  /** The tools `generate_tools` appends for sources `keys`, in that order. */
  function ToolsFor(keys: seq<string>, entries: map<string, VectorStore>, contextKey: string,
                    toolData: map<string, string>, toolSystemPrompts: map<string, string>): seq<Tool>
    requires forall k :: k in keys ==> k in entries
  {
    if keys == [] then []
    else ToolsFor(keys[..|keys| - 1], entries, contextKey, toolData, toolSystemPrompts)
         + [ToolFor(keys[|keys| - 1], entries[keys[|keys| - 1]], contextKey, toolData, toolSystemPrompts)]
  }

  /** One more source in the list adds its tool after the tools of the earlier ones. */
  lemma ToolsForStep(keys: seq<string>, entries: map<string, VectorStore>, contextKey: string,
                     toolData: map<string, string>, toolSystemPrompts: map<string, string>, i: nat)
    requires forall k :: k in keys ==> k in entries
    requires i < |keys|
    ensures keys[i] in entries
    ensures ToolsFor(keys[..i + 1], entries, contextKey, toolData, toolSystemPrompts)
         == ToolsFor(keys[..i], entries, contextKey, toolData, toolSystemPrompts)
            + [ToolFor(keys[i], entries[keys[i]], contextKey, toolData, toolSystemPrompts)]
  {
    assert keys[..i + 1][..i] == keys[..i];
  }

  /** The tools line up with the sources: tool `i` is the one built for `keys[i]`. */
  lemma {:induction false} ToolsForAt(keys: seq<string>, entries: map<string, VectorStore>, contextKey: string,
                                      toolData: map<string, string>, toolSystemPrompts: map<string, string>, i: nat)
    requires forall k :: k in keys ==> k in entries
    requires i < |keys|
    ensures var tools := ToolsFor(keys, entries, contextKey, toolData, toolSystemPrompts);
      |tools| == |keys| && tools[i] == ToolFor(keys[i], entries[keys[i]], contextKey, toolData, toolSystemPrompts)
  {
    var init := keys[..|keys| - 1];
    if i < |init| {
      ToolsForAt(init, entries, contextKey, toolData, toolSystemPrompts, i);
    } else if init != [] {
      ToolsForAt(init, entries, contextKey, toolData, toolSystemPrompts, 0);
    }
  }

  /** Tool `i` serves source `keys[i]`: it is named after it, retrieves from its index, and takes
      its description and system prompt from the configuration, or the defaults when absent. */
  lemma ToolsForSpec(keys: seq<string>, entries: map<string, VectorStore>, contextKey: string,
                     toolData: map<string, string>, toolSystemPrompts: map<string, string>)
    requires forall k :: k in keys ==> k in entries
    ensures var tools := ToolsFor(keys, entries, contextKey, toolData, toolSystemPrompts);
      && |tools| == |keys|
      && forall i :: 0 <= i < |keys| ==>
        && tools[i].name == keys[i]
        && tools[i].chain.retriever == entries[keys[i]]
        && tools[i].chain.contextKey == contextKey
        && tools[i].description == (if keys[i] in toolData then toolData[keys[i]] else DefaultToolDescription)
        && tools[i].chain.systemPrompt == (if keys[i] in toolSystemPrompts then toolSystemPrompts[keys[i]] else DefaultSystemPrompt)
  {
    var tools := ToolsFor(keys, entries, contextKey, toolData, toolSystemPrompts);
    if keys == [] {
      assert tools == [];
    } else {
      ToolsForAt(keys, entries, contextKey, toolData, toolSystemPrompts, 0);
      forall i | 0 <= i < |keys|
        ensures tools[i] == ToolFor(keys[i], entries[keys[i]], contextKey, toolData, toolSystemPrompts)
      {
        ToolsForAt(keys, entries, contextKey, toolData, toolSystemPrompts, i);
      }
    }
  }

  /** A list without repeats has as many elements as its set. */
  lemma {:induction false} DistinctCount(s: seq<string>)
    requires forall i, j :: 0 <= i < j < |s| ==> s[i] != s[j]
    ensures |set x | x in s| == |s|
  {
    if s != [] {
      var init, last := s[..|s| - 1], s[|s| - 1];
      DistinctCount(init);
      assert s == init + [last];
      assert last !in init by {
        forall i | 0 <= i < |init| ensures init[i] != last {
          assert init[i] == s[i];
        }
      }
      assert (set x | x in s) == (set x | x in init) + {last};
    }
  }

  /** The tools are named after their sources, in order. */
  lemma ToolNames(keys: seq<string>, entries: map<string, VectorStore>, contextKey: string,
                  toolData: map<string, string>, toolSystemPrompts: map<string, string>)
    requires forall k :: k in keys ==> k in entries
    ensures var tools := ToolsFor(keys, entries, contextKey, toolData, toolSystemPrompts);
      |tools| == |keys| && forall i :: 0 <= i < |keys| ==> tools[i].name == keys[i]
  {
    if keys != [] {
      ToolsForAt(keys, entries, contextKey, toolData, toolSystemPrompts, 0);
      forall i | 0 <= i < |keys|
        ensures ToolsFor(keys, entries, contextKey, toolData, toolSystemPrompts)[i].name == keys[i]
      {
        ToolsForAt(keys, entries, contextKey, toolData, toolSystemPrompts, i);
      }
    }
  }

  /** `generate_tools` over all registered sources yields exactly one tool per source: as many
      tools as sources, their names pairwise different and together the registered keys. */
  lemma OneToolPerSource(d: SourceDict, contextKey: string,
                         toolData: map<string, string>, toolSystemPrompts: map<string, string>)
    requires d.Valid()
    ensures var tools := ToolsFor(d.order, d.entries, contextKey, toolData, toolSystemPrompts);
      && |tools| == |d.entries|
      && (forall i, j :: 0 <= i < j < |tools| ==> tools[i].name != tools[j].name)
      && (forall k :: k in d.entries <==> exists i :: 0 <= i < |tools| && tools[i].name == k)
  {
    var tools := ToolsFor(d.order, d.entries, contextKey, toolData, toolSystemPrompts);
    ToolNames(d.order, d.entries, contextKey, toolData, toolSystemPrompts);
    DistinctCount(d.order);
    assert d.entries.Keys == set x | x in d.order;
    forall k ensures k in d.entries <==> exists i :: 0 <= i < |tools| && tools[i].name == k {
      if k in d.entries {
        var i :| 0 <= i < |d.order| && d.order[i] == k;
        assert tools[i].name == k;
      } else {
        forall i | 0 <= i < |tools| ensures tools[i].name != k {
          assert tools[i].name == d.order[i];
        }
      }
    }
  }
}
