# wsgiprof in Dafny

A model of the WSGI profiling middleware of `wsgiprof/profiler.py`, with
proofs of what it promises. The middleware sits in front of a WSGI
application (PEP 3333). It profiles every request it passes on and keeps
each request's statistics by request id and by path. It serves them back on
two pages of its own: `/__profile__` (an HTML viewer) and
`/__profile__/tree.png` (a call-graph image).

The project has six modules:

- `Text`: ASCII lower-casing, substring and prefix tests, `str.strip(c)`,
  UTF-8 encoding and byte literals.
- `Template`: `cgi.escape(value, quote=True)` and `_render_template`, with
  the regular expression `\{\{(.*?)\}\}` modelled as it matches. The group
  is non-greedy, and `.` does not cross a newline. `eval` is an abstract
  evaluator. The module also holds the viewer template `_VIEWER_TEMPLATE`.
- `Headers`: `_find_header`, the `Content-Type` test and the
  `start_response` hook. The hook is a class whose `html_output` field is
  set, and the application's header list is a class edited in place.
- `Store`: `PersistentProfileResult` as an opaque immutable value, the two
  dictionaries `_result_by_id` and `_results_by_path`, the commit of a
  finished request, and the query of `_get_results_by_request`.
- `Middleware`: routing in `__call__`, the viewer, image and record
  handlers, and the `ProfileMiddleware` class holding the dictionaries.
- `Response`: response bodies (tuple, list, other iterable), the profiler
  link and how it is added to a body.

The model keeps the iteration order of `_results_by_path` explicitly, as
`pathOrder`, and makes it insertion order. That is the order of Python 3.7
dictionaries (and of CPython 3.6 as an implementation detail). The package
declares Python 2.7 (`setup.py:40`), whose dictionaries iterate in an
unspecified hash order. Python 3.8 and later cannot run the module, because
`cgi.escape` (`wsgiprof/profiler.py:81`) is gone there.

Strings follow Python 3 `str`: the path, the query values and the header
names are all text of one kind, compared character by character.

Two facts about the lookup shape the viewer and the image pages:

- An unknown non-empty `request_id` makes `_get_results_by_request` raise
  `KeyError` (`wsgiprof/profiler.py:179-180`). The viewer then shows no
  page, not "No matching log.", and `Lookup` returns
  `Failure(KeyError(id))`.
- A prefix query returns results grouped by path, in the order the
  dictionary iterates its paths, and within a path in arrival order
  (`wsgiprof/profiler.py:184-186`). It is not one global arrival order.
  Under Python 3.7 insertion order the paths come in the order they were
  first seen.

## Model

| member | source | states |
|---|---|---|
| Text.LowerChar | wsgiprof/profiler.py:131 | An ASCII capital becomes its own lower-case letter (`A` to `a` through `Z` to `z`); every other character is kept |
| Text.LowerEqualIgnoringCase | wsgiprof/profiler.py:131 | Two names have the same lower-case form exactly when they have the same length and each pair of characters is equal or the same ASCII letter in the other case |
| Text.Strip | wsgiprof/profiler.py:144 | The result neither begins nor ends with the stripped character |
| Text.StripSurrounded | wsgiprof/profiler.py:144 | Stripping gives back exactly the trimmed middle, whatever runs of the character surround it |
| Middleware.Route | wsgiprof/profiler.py:142-149 | Viewer exactly when the method is GET and the slash-stripped path is `__profile__`; Tree exactly when it is GET and `__profile__/tree.png`; every other request, non-GET included, is recorded |
| Middleware.RouteIgnoresSlashes | wsgiprof/profiler.py:143-148 | Any number of leading and trailing slashes around either path reach the same page |
| Headers.FirstMatch | wsgiprof/profiler.py:129-133 | The index found names a header whose name equals the wanted one case-insensitively, and no earlier header does; no index exactly when no header matches |
| Headers.FindHeader | wsgiprof/profiler.py:128-133 | The loop returns the first case-insensitive match's value and index, or `(default, None)` when nothing matches |
| Headers.DropFirstAt | wsgiprof/profiler.py:121-123 | Dropping the first `name` header deletes the entry at the index `_find_header` returns, and changes nothing when there is none |
| Headers.DropFirstRemovesOne | wsgiprof/profiler.py:121-123 | Exactly one matching header goes, the first: the list is one shorter, the entries before it are kept, the count of such headers drops by one, and all other headers stay in order |
| Headers.DropFirstKeepsOthers | wsgiprof/profiler.py:121-123 | The value of every header with another name is unchanged |
| Headers.HookKeepsContentType | wsgiprof/profiler.py:116-123 | The hook's edit keeps the `Content-Type` value, so the forwarded headers are HTML exactly when the original ones were |
| Headers.HeaderList.Delete | wsgiprof/profiler.py:123 | `del response_headers[i]` removes exactly entry `i` |
| Headers.HeaderList.DeleteFirst | wsgiprof/profiler.py:121-123 | The list becomes the old list without its first matching header |
| Headers.StartResponseHook.constructor | wsgiprof/profiler.py:111-113 | `html_output` starts as `None` |
| Headers.StartResponseHook.Call | wsgiprof/profiler.py:115-126 | `html_output` becomes true exactly when the `Content-Type` is non-empty and contains `text/html` or `application/xhtml+xml` in any case; only then is the first `Content-Length` deleted in place; the status and the edited list are forwarded |
| Template.UnescapeEscape | wsgiprof/profiler.py:81 | Escaping loses nothing: decoding the four entities gives the value back |
| Template.EscapeHasNoMarkup | wsgiprof/profiler.py:81 | Escaped text contains no `<`, `>` or `"` |
| Template.EscapePlain | wsgiprof/profiler.py:81 | Text without `&`, `<`, `>` or `"` is unchanged by escaping |
| Template.CloseAtIsShortestMatch | wsgiprof/profiler.py:82 | The non-greedy group ends at the first `}}` with no newline before it; there is no match exactly when every later `}}` has a newline before it |
| Template.RenderCopiesText | wsgiprof/profiler.py:82 | Text with no `{{` and no `{` at its end is copied unchanged, and rendering goes on after it |
| Template.RenderAllText | wsgiprof/profiler.py:82 | Such text on its own renders to itself |
| Template.RenderPlaceholderThenText | wsgiprof/profiler.py:79-82 | A placeholder followed by such text renders as the escaped value followed by that text |
| Template.RenderPlaceholder | wsgiprof/profiler.py:79-82 | `{{e}}`, for any `e` without a newline and without `}}` in `e + "}"`, becomes the escaped value of `e`, and the scan resumes after the placeholder, so the value is never scanned again |
| Template.RenderNewlineSplit | wsgiprof/profiler.py:82 | No match spans a line break, so a template renders line by line |
| Template.RenderOnePlaceholder | wsgiprof/profiler.py:79-82 | A line holding one placeholder between plain text renders as that text around the escaped value |
| Template.StatsLineRenders | wsgiprof/profiler.py:72-75 | A page ending in the statistics line ends with the escaped `stats_dump` inside `<pre>`, whatever the lines above render to |
| Store.EmptyWellFormed | wsgiprof/profiler.py:139-140 | The empty dictionaries satisfy the invariant: the path order lists each path key exactly once, and every result kept by id is in the list of some path |
| Store.Commit | wsgiprof/profiler.py:172-175 | Committing keeps the invariant: the path order lists each key of `_results_by_path` exactly once, and every result kept by id is in the list of some path |
| Store.CommitIndexed | wsgiprof/profiler.py:174-175 | Storing the result under its id and appending it to its path's list keeps every result kept by id filed under some path |
| Store.CommitThenLookupById | wsgiprof/profiler.py:174-180 | After a commit, asking for its id gives exactly the new result, replacing an earlier one; every other id gives what it gave before |
| Store.CommitNewPath | wsgiprof/profiler.py:175-186 | The first result of a new path comes after all earlier results in a prefix query that matches it |
| Store.CommitAddsOne | wsgiprof/profiler.py:175-186 | After any commit a prefix query returns the same results plus the new one exactly when its path starts with the prefix |
| Store.CollectMembers | wsgiprof/profiler.py:182-186 | A result is returned exactly when it was recorded under a path starting with the prefix |
| Store.CollectEmptyPrefix | wsgiprof/profiler.py:182-186 | The default empty prefix returns every path's list, one after the other in path order |
| Middleware.ProfileMiddleware.constructor | wsgiprof/profiler.py:137-140 | Both dictionaries start empty, the class invariant holds, and the viewer renders `_VIEWER_TEMPLATE` |
| Middleware.ProfileMiddleware.Commit | wsgiprof/profiler.py:172-175 | The dictionaries become the commit of the old ones, and the invariant is kept |
| Middleware.ProfileMiddleware.GetResultsByRequest | wsgiprof/profiler.py:177-187 | The loop returns exactly `Lookup`: `[by_id[id]]` for a known id, `KeyError` for an unknown one, otherwise the lists of matching paths in path order |
| Middleware.ViewerNoMatch | wsgiprof/profiler.py:193-211 | With no matching result the viewer answers `200 OK`, `text/html`, with "No matching log." inside the page's `<pre>` |
| Middleware.NoMatchingLogIsPlain | wsgiprof/profiler.py:194 | "No matching log." is unchanged by escaping |
| Middleware.ViewerOutcome | wsgiprof/profiler.py:189-211 | The viewer answers with a page exactly when the lookup succeeds and either nothing matches or pstats knows the sort order; otherwise it raises the `KeyError` of the unknown id or of the unknown sort order |
| Middleware.ProfileMiddleware.ViewerHandler | wsgiprof/profiler.py:189-211 | The handler answers with the rendered page of the looked-up results, or raises the lookup's `KeyError` or the `KeyError` of `sort_stats` for an unknown sort order |
| Middleware.TreeNoMatch | wsgiprof/profiler.py:215-220 | With readable thresholds and no matching result the image view answers `200 OK`, `text/plain`, body exactly `b'No matching log.'`, the UTF-8 encoding of the viewer's notice |
| Middleware.ProfileMiddleware.TreeHandler | wsgiprof/profiler.py:213-247 | Thresholds are parsed first (`ValueError` on a bad one), then the lookup; no result gives the plain notice; otherwise the PNG, or the `dot` error text when it cannot run |
| Text.AsciiBytesAreUtf8 | wsgiprof/profiler.py:220 | A byte literal of ASCII text is that text's UTF-8 encoding |
| Text.Utf8Concat | wsgiprof/profiler.py:161-164 | Encoding a joined string is joining the encodings |
| Response.ProfileLinkNamesRequest | wsgiprof/profiler.py:161-164 | The link chunk contains the viewer address of this request id followed by the closing quote |
| Response.ChunkList.Append | wsgiprof/profiler.py:168 | `list.append` adds the chunk at the end |
| Response.AppendLink | wsgiprof/profiler.py:165-170 | Tuple, list and other iterable all yield the original chunks followed by the link; a tuple becomes a new list, and a list is the same list, appended in place |
| Middleware.StartThroughHook | wsgiprof/profiler.py:156-158 | The application's `start_response` goes through a new hook, which edits the header list and records the HTML decision |
| Middleware.RunApplication | wsgiprof/profiler.py:155-171 | The run forwards the hooked headers and passes on the application's exception; an HTML body yields its chunks plus exactly one link chunk, and any other body is returned unchanged; a list body is returned as the same list |
| Middleware.ProfileMiddleware.RecordHandler | wsgiprof/profiler.py:151-175 | The application's outcome is what it records, a list body comes back as the same list, and the result is committed whether the application returned or raised |
| Middleware.ProfileMiddleware.Call | wsgiprof/profiler.py:142-149 | The viewer and the image leave the results and the application untouched and answer with a new list; every other request is recorded and committed |
| Middleware.Answer | wsgiprof/profiler.py:210-211 | A reply reaches the server as its `start_response` call and a new list of its chunks; an exception is passed on |

## Left out

- cProfile and pstats (`runcall`, `create_stats`, merging, `strip_dirs`, `sort_stats`, `print_stats`) are foreign library calls. The statistics are an opaque `ProfileStats` value, and the text dump is the abstract `Externals.statsDump`, which gives no text where `sort_stats` does not know the sort order.
- gprof2dot (parsing, `prune`, `DotWriter`) and the `dot` subprocess are foreign code and process I/O. They are the abstract `Externals.renderPng`, which gives no image when `dot` cannot be run.
- `time.time()`, the id made from it and the `%.3f` duration are clock reads and float formatting. The id and the formatted duration are inputs of `RecordRun`.
- `eval` of a placeholder expression is arbitrary evaluation. It is the abstract `Externals.evaluate`. `ViewerNoMatch` assumes `stats_dump` evaluates to the dictionary's entry, as `eval` does.
- `float()` on a query value is the abstract `Externals.parseFloat`, and thresholds are reals. The division by 100 is kept.
- `_parse_params` (`parse_qsl`) and the `six` Python 2 branches are library parsing and encoding plumbing. `Environ.params` holds the decoded query.
- `copy.deepcopy` in `PersistentProfileResult` only makes a copy, so the result is an immutable value.
- Text.Lower: lower-cases ASCII letters only. Python's `str.lower` also folds other scripts, and its contract states only the length.
- Text.AsciiBytes: keeps the low byte of each character. Python accepts only ASCII in a `b'...'` literal, which is where it is used.
- Middleware.RunApplication: an application calls `start_response` at most once and without `exc_info`. The value the server's `start_response` returns (the `write` callable) is not modelled.
- Middleware.RunApplication: `itertools.chain` is lazy, so the link chunk reaches the server only after the application's last chunk. The model gives the chained body's chunks as one sequence.
- Middleware.RunApplication: an application that calls `start_response` only while the server iterates its body (a generator) is not represented. The model has `start_response` called, or not, before the body is looked at. In the code `html_output` is still `None` at `wsgiprof/profiler.py:160`, so such a response gets no link, yet the hook still deletes `Content-Length` when it is called later.
- Middleware.RunApplication: the chained body of `wsgiprof/profiler.py:170` has no `close()`, so the server can no longer close the application's iterable. The model has no `close()` on bodies.
- Store.CommitNewPath: the path order, and with it `Store.CollectEmptyPrefix` and the order of a prefix query, is Python 3.7's insertion order. Under Python 2.7 (`setup.py:40`) the dictionary's order is unspecified and can change as it grows. Only `Store.CollectMembers` and `Store.CommitAddsOne`, which speak of membership and multisets, hold on every version.
- Middleware.ProfileMiddleware.Call: `PATH_INFO` is taken as present in the environ. PEP 3333 lets a server leave it out when it is empty, and the code reads it with `environ['PATH_INFO']`. A GET without it raises `KeyError` at `wsgiprof/profiler.py:144`. Any other method raises it at `wsgiprof/profiler.py:153`, before the `try`, so the application does not run and nothing is committed. The model routes such a request with `""` as its path.
- Store.Collect: under Python 2.7, `_parse_params` gives unicode values (`wsgiprof/profiler.py:88-89`) while `PATH_INFO` is a byte string. So `request_path.startswith(request_path_prefix)` (`wsgiprof/profiler.py:185`) raises `UnicodeDecodeError` once a recorded path holds a non-ASCII byte and the query gives a prefix. The model uses Python 3 `str` and has no such error.
- Response.ProfileLinkNamesRequest: the lemma holds for any `elapsed` and `id`. The code formats both with `%.3f` and `%.0f`, so they are digits, `.` and `-`. Only because of that does the address name no other request id; the model does not restrict the two strings.
- Requests are modelled one at a time, each `ProfileMiddleware.Call` as one step. The code takes no lock. Under a threaded server, another request can see the state between the two updates at `wsgiprof/profiler.py:174-175`. Under Python 3, a prefix query iterating `_results_by_path` (`wsgiprof/profiler.py:184`) while another request adds a new path raises `RuntimeError`.
- The exact HTML of `_VIEWER_TEMPLATE` above the statistics line is data. It is checked only through `WithStatsLine`, that is, where the statistics land.
