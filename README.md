# Commit traversal of code-change-miner

code-change-miner mines recurring code changes from Git histories. Its first stage,
`vcs/traverse.py`, walks every repository in a directory. For each commit of a repository
it finds the Python functions and methods that the commit edited. It hands each edited
pair (old text, new text) to the change-graph builder. The graphs that build are pickled
to disk in batches.

This project models that stage in Dafny:

- **`Text`**: Python's `str.strip`, `startswith`, `endswith` and `os.path.join` on
  strings.
- **`Syntax`**: the parts of a Python syntax tree that method extraction tells apart
  (`FunctionDef`, `ClassDef`, anything else). It also holds what extraction yields,
  stated twice as values:
  - as the visitor computes it, bottom-up, prefixing class names as nesting unwinds;
  - as a top-down reference, where each function is named by the classes around it.
- **`Visitor`**: `Method` is a class whose `fullName` is rewritten in place.
  `MethodExtractor` is the `ast.NodeVisitor` subclass. `visit_Module` and
  `visit_ClassDef` are loops over their statement lists, and `visit_FunctionDef` makes one
  new `Method` without visiting the function's body.
  `ExtractMethods` is `_extract_methods`.
- **`Matching`**: `_get_methods_mapping`, the double loop that fills an
  insertion-ordered dict keyed by old `Method` objects. It is proved against an index
  specification, `MatchIndices`, where the last new method of a name wins.
- **`Batching`**: the list of built graphs that is stored whenever it reaches
  `STORE_INTERVAL` entries, and once more at the end of a commit. It is proved to be the
  chunking of all graphs into batches of that size, with only the last batch smaller.
- **`Commits`**: `_extract_commits`, which turns the traversed history into numbered
  commit records, skipping root commits.
- **`Pipeline`**:
  - `_get_commit_change_graphs`, proved against a pure specification: the builder
    calls a commit leads to (`CommitRequests`) and the graphs that succeed (`Built`);
  - `build_change_graphs` over all repositories.

Collaborators that lie outside the modelled code are parameters:

| source | parameter |
|---|---|
| `ast.parse` | `parse: string -> Option<Module>`, where `None` is a syntax error |
| `ast.get_source_segment` | `segment: (string, Stmt) -> Option<string>`, where `None` is a failed lookup |
| `changegraph.build_from_files` | `build: (string, string, RepoInfo) -> Result<G, string>`, where `Err` is an exception |
| the output of `git config --get remote.origin.url` | `gitOutput: string -> string` |
| pydriller's `traverse_commits` | `history: string -> seq<TraversedCommit>` |
| `os.listdir` | `listing: seq<string>` |

`STORE_INTERVAL` and `GIT_REPOSITORIES_DIR` are parameters as well (`interval` and
`reposDir`). `STORAGE_DIR` has no counterpart: the storage of one batch
(`_store_change_graphs`) is modelled as appending the batch to a `stored` sequence of the
buffer.

## Model

| member | source | states |
|---|---|---|
| Text.Strip | vcs/traverse.py:207 | `src.strip()`: the result neither starts nor ends with whitespace. It is the infix of the input whose cut-away prefix and suffix are entirely whitespace. |
| Text.StripIdempotent | vcs/traverse.py:207 | Stripping an already stripped text changes nothing. |
| Text.EndsWithStem | vcs/traverse.py:101 | `str.endswith(suffix)` holds exactly when the string is some stem followed by the suffix. |
| Text.PathJoin | vcs/traverse.py:38 | `os.path.join(dir, name)`: an absolute name replaces the directory. Otherwise the result is the directory, then one `/` when the directory is non-empty and does not already end in one, then the name. |
| Syntax.VisitStmt | vcs/traverse.py:179-200 | Every method the visitor yields for a statement is a `FunctionDef` node named after that node. Its qualified name ends with its own name, and it carries the file's path and stripped text. |
| Syntax.VisitBody | vcs/traverse.py:179-197 | The same facts for every method collected from a module or class body. |
| Syntax.ScopedUnderClass | vcs/traverse.py:187-197 | Opening one more class scope on the outside is the same as prefixing the class name and `.` onto every method found inside. |
| Syntax.VisitStmtIsScoped | vcs/traverse.py:187-200 | The visitor's bottom-up renaming (`extend_path` once per enclosing class, innermost first) names each method `Outer.Inner.name`: its enclosing classes outermost first, then its own name. |
| Syntax.VisitBodyIsScoped | vcs/traverse.py:179-197 | The same for a whole module or class body, in statement order. |
| Syntax.NestedClassName | vcs/traverse.py:187-200 | Worked case: `class Outer` holding `class Inner` holding `def run` yields one method, qualified `Outer.Inner.run`. |
| Visitor.Method.constructor | vcs/traverse.py:204-210 | A new `Method` keeps the path, node and name, holds the stripped file text, and starts with its qualified name equal to its name. |
| Visitor.Method.ExtendPath | vcs/traverse.py:212-213 | `extend_path` puts the prefix and the separator in front of the qualified name. |
| Visitor.Method.GetSource | vcs/traverse.py:216-221 | `get_source` is the segment lookup on the method's stripped file text and its own node. It ignores the qualified name, so renaming does not change it. A lookup that fails or raises gives `None`. |
| Visitor.QualifyAt | vcs/traverse.py:194-195 | One round of the renaming loop: method `k` gets the class name and `.` in front. The methods before it are already qualified, and those after it keep their names, since they are other objects. |
| Visitor.MethodExtractor.VisitModule | vcs/traverse.py:179-185 | `visit_Module` returns fresh, pairwise distinct `Method` objects. Their values are exactly the extraction of the module body. |
| Visitor.MethodExtractor.VisitStatements | vcs/traverse.py:180-184 | The loop over a body concatenates the methods of each statement, in order. The objects are fresh and distinct. |
| Visitor.MethodExtractor.Visit | vcs/traverse.py:179-200 | Dispatch on the node kind. A statement other than a function or class yields nothing. |
| Visitor.MethodExtractor.VisitClassDef | vcs/traverse.py:187-197 | `visit_ClassDef` collects its body's methods, then renames each in place. Afterwards every one is qualified by the class name and nothing else changed. |
| Visitor.MethodExtractor.VisitFunctionDef | vcs/traverse.py:199-200 | `visit_FunctionDef` yields one fresh `Method` for the function and does not look inside its body. |
| Visitor.ExtractMethods | vcs/traverse.py:155-162 | `_extract_methods`: absent text or a parse failure yields no methods. Otherwise it yields the methods of the parsed module. |
| Matching.Dict.Put | vcs/traverse.py:170 | Assigning a dict entry updates the value. It appends the key to the iteration order only when the key is new. |
| Matching.LastIndex | vcs/traverse.py:168-170 | The position of the last occurrence of a name: it holds the name and no later position does. |
| Matching.MatchedNamesAgree | vcs/traverse.py:165-171 | Every matched pair joins an old and a new method with equal qualified names, and no later new method has that name, so the last one wins. |
| Matching.MatchIndicesAscending | vcs/traverse.py:166-171 | The pairs come in the order of the old methods, each old method at most once. |
| Matching.MatchIndicesComplete | vcs/traverse.py:165-171 | An old method is matched if and only if some new method has its qualified name. |
| Matching.MapOne | vcs/traverse.py:168-170 | The inner loop for one old method maps it to the last new method with its name, when there is one. Every other entry is left unchanged. |
| Matching.MapStep | vcs/traverse.py:167-170 | One round of the outer loop extends the keys to the old methods seen so far that have a namesake, each mapped to the last namesake. While those old methods are distinct, the keys come in match order. |
| Matching.MapAll | vcs/traverse.py:166-171 | After the outer loop, the keys are exactly the old methods with a namesake among the new ones, each mapped to the last namesake. With distinct old methods, the keys come in the order of `MatchIndices`. |
| Matching.MethodsMapping | vcs/traverse.py:165-171 | `_get_methods_mapping`: the key set, the values (the last new method of the same name) and equal qualified names. With distinct old methods, the dict's items are exactly the pairs `MatchIndices` lists, in order. |
| Batching.BatchSize | vcs/traverse.py:147 | The effective batch size: `STORE_INTERVAL` when it is at least 1. Otherwise it is 1, because `len(...) >= interval` then holds after every append. |
| Batching.ChunksConcat | vcs/traverse.py:145-152 | Joining the batches gives back every graph, in order. |
| Batching.ChunksAreBatching | vcs/traverse.py:145-152 | Chunking yields non-empty batches, all of the interval's size except possibly the last, which is smaller. |
| Batching.BatchingIsChunks | vcs/traverse.py:145-152 | Any such batching is the chunking of its concatenation, so the stored batches are determined by the graphs alone. |
| Batching.ChunksCount | vcs/traverse.py:145-152 | `n` graphs are stored in `ceil(n / interval)` batches. |
| Batching.ChunksLast | vcs/traverse.py:147-152 | The last batch holds `n mod interval` graphs, or a full interval when that remainder is 0. |
| Batching.GraphBuffer.constructor | vcs/traverse.py:93 | A commit starts with an empty list and nothing stored. |
| Batching.GraphBuffer.Store | vcs/traverse.py:82-89 | Storing records exactly the given batch, after those stored before. |
| Batching.GraphBuffer.Append | vcs/traverse.py:145-149 | Appending a graph keeps the sequence of all graphs seen. The list is stored and cleared exactly when it reaches the interval, and is otherwise just extended. |
| Batching.GraphBuffer.Finish | vcs/traverse.py:151-152 | The final flush stores the list only if it is non-empty. Every graph is then stored, and the stored batches form a valid batching. |
| Commits.NonRoot | vcs/traverse.py:43-45 | A commit is kept if and only if it has a parent. |
| Commits.MaterialiseExtend | vcs/traverse.py:43-70 | Traversing one more commit appends its record, numbered after the earlier ones, when it has a parent, and appends nothing otherwise. |
| Commits.MaterialiseFacts | vcs/traverse.py:42-70 | There is one record per non-root commit, numbered 1, 2, … in order. Record `i` carries the hash, message and modifications of the `i`-th commit that has a parent, and the repository's name, path and URL. |
| Commits.RepoUrl | vcs/traverse.py:76-79 | `_get_repo_url`: the URL is the `git` output with its leading and trailing whitespace cut off, so the trailing newline is gone. What is cut off is whitespace only, and the URL neither starts nor ends with whitespace. |
| Commits.CopyModifications | vcs/traverse.py:59-68 | Copying the modifications keeps every one of them, in order. |
| Commits.ExtractCommits | vcs/traverse.py:35-73 | `_extract_commits` returns the records of the non-root commits, numbered in order. The repository path is `os.path.join` of the repository directory and the name, and the URL is the stripped `git` output. |
| Pipeline.PythonModifyPaths | vcs/traverse.py:98-102 | The modification filter: a modification is looked at exactly when it is a MODIFY and both its old and new path are some name followed by `.py`. |
| Pipeline.WorthBuilding | vcs/traverse.py:113 | The pair filter is the negation of the skip test `not all([old, new]) or old == new`, with Python's truth value of a `str` or `None`. |
| Pipeline.PairRequests | vcs/traverse.py:109-131 | Every builder call has two non-empty, different texts. It carries the commit's repository and hash, and a matched pair of methods. |
| Pipeline.BuiltFromCalls | vcs/traverse.py:133-145 | Every graph kept comes from a builder call that returned it. When every call raises, nothing is kept. |
| Pipeline.BuiltAppend | vcs/traverse.py:133-145 | Building proceeds call by call: the graphs of two runs of calls are the graphs of each, joined. |
| Pipeline.BuildFailureSkipsOnlyThatPair | vcs/traverse.py:133-143 | A builder call that raises loses only its own graph. The calls before and after it still contribute all of theirs. |
| Pipeline.BuiltAtMostOnePerCall | vcs/traverse.py:133-145 | At most one graph per builder call. |
| Pipeline.BuildPair | vcs/traverse.py:110-149 | For one mapped pair: skip it unless both texts exist, are non-empty and differ. Then call the builder and buffer a graph that is built. The buffered graphs grow by exactly what the pair's call yields. |
| Pipeline.BuildItem | vcs/traverse.py:109-149 | The loop body for the dict's `t`-th item adds the graphs of the `t`-th matched pair. |
| Pipeline.BuildPairs | vcs/traverse.py:109-149 | The loop over the mapping's items adds the graphs of all matched pairs, in match order. |
| Pipeline.BuildModification | vcs/traverse.py:97-149 | One modification: anything but a MODIFY of two `.py` paths adds nothing. Otherwise the graphs of its matched, changed method pairs are added, in order. |
| Pipeline.GetCommitChangeGraphs | vcs/traverse.py:92-152 | `_get_commit_change_graphs`: the stored batches, joined, are the graphs of all the commit's successful builder calls, in order. They form a batching by the interval, so they equal their chunking. |
| Pipeline.ModRequestsFacts | vcs/traverse.py:97-131 | Every builder call of a modification comes from a MODIFY of two `.py` paths and names methods of those two files. Its two methods share one qualified name, its texts are non-empty and differ, and it carries the commit's metadata. |
| Pipeline.RequestsFacts | vcs/traverse.py:97-131 | Every builder call of a commit is sound in that sense and comes from one of the commit's modifications. |
| Pipeline.OneFunctionFile | vcs/traverse.py:155-162 | A module holding one function `f` yields exactly one method, `f`. |
| Pipeline.OneModification | vcs/traverse.py:97 | A commit with one modification makes exactly the builder calls of that modification. |
| Pipeline.OnePairRequest | vcs/traverse.py:104-131 | One old and one new method of the same qualified name are mapped to each other, giving exactly that pair's builder call. |
| Pipeline.OneFunctionEdit | vcs/traverse.py:97-113 | An edit of `a.py` whose old and new modules each hold one function `f` yields exactly the pair (old `f`, new `f`). |
| Pipeline.SingleFunctionEdit | vcs/traverse.py:92-131 | Worked case: a commit that edits the body of the one function `f` in `a.py` leads to exactly one builder call. That call carries the two texts of `f`, both versions of `f` and the commit's metadata. |
| Pipeline.RepoNames | vcs/traverse.py:24 | A directory entry is a repository to look at if and only if its name does not start with `_`. |
| Pipeline.RepoNamesAppend | vcs/traverse.py:24 | The filter works entry by entry and keeps the listing's order. |
| Pipeline.GetChangeGraphsOfCommits | vcs/traverse.py:32 | `pool.map` over the commits: one result per commit, in commit order. Each result is that commit's stored batches. |
| Pipeline.BuildRepoChangeGraphs | vcs/traverse.py:29-32 | One repository: its commits are extracted from its history, and each is processed as above. |
| Pipeline.BuildReposChangeGraphs | vcs/traverse.py:26-32 | The repositories are processed one after another, in order. |
| Pipeline.BuildChangeGraphs | vcs/traverse.py:23-33 | `build_change_graphs`: the stored batches are those of every commit of every repository whose name does not start with `_`, in listing order. |

## Left out

- The `multiprocessing.Pool` is not modelled: no concurrency, no `maxtasksperchild`,
  and no worker processes. Commits are processed sequentially in `pool.map`'s result
  order. The batches of different commits are kept apart because each call to
  `_get_commit_change_graphs` starts from its own empty list.
- `change_graphs` is local to each call of `_get_commit_change_graphs`
  (vcs/traverse.py:93), so a batch never spans two commits, whichever worker runs them.
- The mapping is keyed by old `Method` objects, compared by identity. Two old methods
  with the same qualified name (a redefinition) are two keys, each mapped to the same
  last new namesake. The item-order
  statement of `Matching.MethodsMapping` assumes distinct old `Method` objects. The
  extractor always produces distinct objects, as `Visitor.MethodExtractor.VisitModule`
  proves.
- `subprocess.run`, `os.listdir` and pydriller's `RepositoryMining` are not modelled.
  Their results are parameters. UTF-8 decoding of the `git` output is not modelled.
- `ast.parse` and `ast.get_source_segment` are not modelled internally. They are
  parameters, and `Stmt` keeps only the node kinds the extractor distinguishes.
  `async def` is an `Other` statement. The extractor has no `visit_AsyncFunctionDef`, so
  `generic_visit` walks into it but returns `None`, and it contributes no methods.
- `changegraph.build_from_files` is not modelled internally; it is a parameter. The
  temporary files, `writelines`, `seek` and `os.path.realpath` only carry the two texts
  to the builder, so the model passes the texts directly.
- `_store_change_graphs` is not modelled as file I/O. The `uuid` file name, `pickle` and
  the storage directory are replaced by recording the batch in `stored`.
- Logging, `time.time()` and the `commit_msg.replace` used only for the log line are not
  modelled.
- `generic_visit` for other statements returns `None` and is not modelled in detail.
  The model yields nothing for them, as the `if result:` test does.
- A MODIFY whose `old_path` or `new_path` is `None` raises `AttributeError` in the
  source and is not modelled as an error. pydriller gives both paths for a MODIFY, and
  the model treats a missing path as filtered out.
- `Batching.GraphBuffer.Finish` does not clear the list after the final store, as in the
  source. The list is dropped with the call.
- Pipeline.BuildChangeGraphs: the nested per-repository, per-commit result is stated
  through the recursive `ReposGraphs` specification. No separate lemma gives the
  `k`-th repository's entry directly.
- Exceptions other than those the source catches (builder failures, parse failures,
  segment failures) are not modelled, for example I/O errors while pickling.
