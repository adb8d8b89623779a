# Ydisk file search, modelled in Dafny

Ydisk is a Django explorer over a Yandex Disk folder. Its core is a
file-name relevance search: `SmartSearch` in explorer/views.py gives every
indexed file a relevance between 0 and 100 for a query. The `search` page and
the `api_search` endpoint keep the files above a threshold, sort them by
relevance and return the first 100. Around that sit some small helpers:

- the icon type of a file;
- the breadcrumb trail of a folder;
- the grouping of the folder tree into an accordion of categories;
- the `disk:/` path handling of `YandexDiskClient`;
- the word-to-files search index;
- the size formatting of the API.

The project models these parts, one module per concern:

| file | module | models |
|---|---|---|
| strings.dfy | `Strings` | the Python string built-ins the core uses (`lower`, `strip`, `lstrip`, `split`, `split(sep)`, `join`, `in`, `\w`, `\s`, `re.findall(r'\b\w+\b')`) |
| smart_search.dfy | `SmartSearch` | `normalize_text`, `filter_stop_words`, `get_word_variations`, `calculate_similarity`, `smart_search` |
| file_view.dfy | `FileView` | `FileView.get_file_type` |
| yandex_disk.dfy | `YandexDisk` | the `disk:/` prefixing of `get_folder_contents`, `get_relative_path`, the index loop of `build_search_index` |
| ranking.dfy | `Ranking` | the score / threshold / stable sort / truncate pipeline and the display path, shared by `search` and `api_search` |
| views.dfy | `Views` | the breadcrumb loop of `index`, the `search` view |
| api_views.dfy | `ApiViews` | `api_search` and `format_size` |
| content_builder.dfy | `ContentBuilder` | `ContentBuilder.convert_tree_to_accordion_format` and its nested helpers |

Where the source works step by step, the model is a method:

- the inner and outer loops of `smart_search`;
- the straight-line updates of the `variations` set in `get_word_variations` (no loop);
- the scoring loop of `search`;
- the `format_size` loop;
- the dictionary-filling loop of `build_search_index`;
- the breadcrumb loop;
- the recursive collectors and the claiming loop of the accordion.

Each such method is proved equal to a specification function. The properties
the source promises are then proved about those functions as lemmas.

Foreign and environment inputs become parameters:

- `difflib.SequenceMatcher(None, a, b).ratio()` is the function parameter
  `ratio`. Lemmas that need it assume only that it lies in [0, 1]
  (`SmartSearch.RatioBounded`).
- The configured root folder is the parameter `root`.
- The rows of `FileIndex` are a sequence of `Ranking.IndexedFile`.
- The folder tree is a value of `seq<ContentBuilder.Folder>`.
- The JSON body of a POST request is a `ApiViews.JsonBody`.

`\s` (`Strings.IsSpace`) is Python's whole Unicode whitespace set: the space,
tab to carriage return, U+001C to U+001F, U+0085, U+00A0, U+1680, U+2000 to
U+200A, U+2028, U+2029, U+202F, U+205F and U+3000. `\w` and `str.lower` are a
table over ASCII and the basic Cyrillic block (U+0400 to U+045F). The lemmas
rely only on these facts about the tables:

- `lower` leaves non-word characters alone;
- `lower` keeps each character's word/non-word class;
- `lower` is idempotent (`Strings.LowerIdempotent`);
- no whitespace character is a word character.

Two observations about the code that need no correction:

- Since `calculate_similarity` returns 0 or a value above 0.7, the 0.4 weight
  branch of `smart_search` (explorer/views.py:196-198) is never taken. So a
  matched query word weighs 0.6, 0.8 or 1.0 (`SmartSearch.BestWeightTiered`).
- Containment of variants gives similarity 0.8. Because the test is
  `> 0.8`, that earns weight 0.6, not 0.8.

## Model

| member | source | states |
|---|---|---|
| Strings.Lower | explorer/views.py:65 | lower-casing leaves non-word characters alone and keeps the word/non-word class of every character |
| Strings.LowerStrMeaning | explorer/views.py:65 | `str.lower` keeps the length, every character's word/non-word class and every non-word character (whitespace, punctuation, `.`, `/`), and lower-casing again changes nothing |
| Strings.LowerIdempotent | explorer/views.py:18 | lower-casing twice is lower-casing once |
| Strings.ContainsAt | explorer/views.py:165 | a needle occurring at some offset is contained (`in`) |
| Strings.ContainsOffset | explorer/views.py:165 | conversely, a contained needle occurs at some offset; with `ContainsAt`, `in` is exactly "occurs at some offset" |
| Strings.ContainsEmpty | explorer/views.py:165 | the empty string is in every string, which is why a blank normalised query scores 100 |
| Strings.TrimStart | explorer/views.py:65 | removes exactly the leading whitespace run; the result is a suffix that does not start with whitespace |
| Strings.TrimEnd | explorer/views.py:65 | removes exactly the trailing whitespace run; the result is a prefix that does not end with whitespace |
| Strings.Strip | explorer/views.py:303 | `strip()` leaves no whitespace at either end and maps an all-whitespace text to ""; what it keeps is `StripInfix` |
| Strings.StripInfix | explorer/views.py:303 | `strip()` keeps exactly the slice between the leading and the trailing whitespace, and everything it removes is whitespace |
| Strings.LStripChar | explorer/utils/yandex_disk.py:402 | `lstrip('/')` removes exactly the leading run of `/`; the result is a suffix not starting with `/` |
| Strings.Split | explorer/views.py:331 | `split('/')` always yields at least one piece |
| Strings.SplitPieces | explorer/views.py:331 | no piece of `split(c)` contains `c` |
| Strings.SplitSingle | explorer/views.py:332 | `split(c)` has exactly one piece if and only if `c` does not occur |
| Strings.JoinSplit | explorer/views.py:331-332 | joining the pieces of `split(c)` with `c` gives back the string |
| Strings.JoinLast | explorer/views.py:332 | joining several pieces is the join of all but the last, the separator, and the last piece |
| Strings.JoinPrefix | explorer/views.py:281 | the join of a prefix of the pieces is a prefix of the join of all of them |
| Strings.SplitLastPiece | explorer/views.py:18 | with `c` present, the last piece of `split(c)` is the text after the last `c`: a suffix without `c`, right after a `c` |
| Strings.TokenEnd | explorer/views.py:169 | the end of the leading non-whitespace run, with whitespace right after it |
| Strings.Words | explorer/views.py:169-170 | `split()` yields non-empty tokens free of whitespace, and none for an all-whitespace text; which tokens is stated by the lemmas below |
| Strings.WordsToken | explorer/views.py:169-170 | a non-empty text without whitespace is one token, itself |
| Strings.WordsSeparated | explorer/views.py:169-170 | a whitespace character separates the tokens before it from those after it: `split(a + c + b) == split(a) + split(b)` |
| Strings.WordsLeadingSpaces | explorer/views.py:169-170 | leading whitespace changes no token |
| Strings.WordsTrailingSpaces | explorer/views.py:169-170 | trailing whitespace changes no token |
| Strings.WordsTrimStart | explorer/views.py:169-170 | `lstrip()` changes no token |
| Strings.WordsBetweenSpaces | explorer/views.py:169-170 | whitespace around a slice adds no token: a text that is whitespace outside `w[k..e]` has the tokens of `w[k..e]` |
| Strings.WordRunEndIsMaximal | explorer/utils/yandex_disk.py:421 | a `\w+` run ends at the first non-word character |
| Strings.WordRunsAreWords | explorer/utils/yandex_disk.py:421 | `re.findall(r'\b\w+\b')` yields non-empty runs of word characters; which runs is stated by the next three lemmas |
| Strings.WordRunsToken | explorer/utils/yandex_disk.py:421 | a non-empty text of word characters is one run, itself |
| Strings.WordRunsSeparated | explorer/utils/yandex_disk.py:421 | a non-word character separates the runs before it from those after it |
| Strings.WordRunsNone | explorer/utils/yandex_disk.py:421 | a text without word characters has no runs |
| SmartSearch.ListedIsMembership | explorer/views.py:44-56 | the stop-word test is membership in `STOP_WORDS` |
| SmartSearch.ReplacePunctuationMeaning | explorer/views.py:68 | after the substitution only `[\w\s\-\.]` characters remain; a text is left unchanged if and only if all its characters are of that class; substituting again changes nothing |
| SmartSearch.CollapseSpaces | explorer/views.py:71 | whitespace runs become one space: no two whitespace characters in a row, every whitespace is a space, the kept charset is preserved, the first character kept or made a space |
| SmartSearch.CollapseSpacesWords | explorer/views.py:71 | collapsing keeps the content: the `split()` tokens are the same |
| SmartSearch.CollapseSpacesLast | explorer/views.py:71 | for a non-empty text, the result ends in whitespace exactly when the text does |
| SmartSearch.Normalize | explorer/views.py:61-62 | an empty text normalises to ""; its content is `NormalizeWords` |
| SmartSearch.NormalizeCharset | explorer/views.py:59-73 | the normalised text holds only word characters, spaces, `-` and `.`, and never two whitespace characters in a row |
| SmartSearch.NormalizeBlank | explorer/views.py:65-71 | an all-whitespace text normalises to "" |
| SmartSearch.NormalizeWords | explorer/views.py:59-73 | the normalised text has the `split()` tokens of the lower-cased text with its punctuation replaced: stripping and collapsing move no token boundary |
| SmartSearch.StripReplacedWords | explorer/views.py:65-68 | stripping before replacing the punctuation changes no token |
| SmartSearch.FilterStopWords | explorer/views.py:76-78 | the kept words are significant (not stop words, longer than 2) and no more than the input |
| SmartSearch.FilterStopWordsAppend | explorer/views.py:76-78 | filtering distributes over concatenation, so the input order is kept |
| SmartSearch.FilterStopWordsMembers | explorer/views.py:76-78 | a word survives if and only if it is in the input, longer than 2 and not a stop word |
| SmartSearch.LongWords | explorer/views.py:170 | the file words kept are input words longer than 2, no more than the input |
| SmartSearch.LongWordsMembers | explorer/views.py:170 | a word is kept if and only if it is an input word longer than 2 |
| SmartSearch.LongWordsAppend | explorer/views.py:170 | the filter distributes over concatenation, so the input order is kept |
| SmartSearch.EndsWithLetters | explorer/views.py:90-111 | the letter-suffix tests are `str.endswith` |
| SmartSearch.Base | explorer/views.py:106-112 | the base drops a two-letter adjective ending, else a one-letter ending, else nothing; it is a prefix of the word |
| SmartSearch.Variations | explorer/views.py:81-117 | the word is its own variant, and its only one when at most 3 characters long |
| SmartSearch.VariationsLengths | explorer/views.py:81-117 | every variant keeps all but at most the last two characters, so its length is within 2 of the word's |
| SmartSearch.GetWordVariations | explorer/views.py:81-117 | the step-by-step set filling yields exactly the variant set |
| SmartSearch.WordSimilarity | explorer/views.py:120-152 | 0 for an empty word, 1.0 for equal words, 0.95 for a shared variant, never in (0, 0.7], at most 1 when the ratio is |
| SmartSearch.SimilarityLowerTiers | explorer/views.py:139-152 | for distinct non-empty words without a shared variant: 0.8 when a variant of one occurs in a variant of the other (both at least 3 long); otherwise the ratio when it exceeds 0.7, and 0 when it does not |
| SmartSearch.SimilarityRange | explorer/views.py:147-152 | with a ratio in [0, 1] the similarity is in [0, 1] |
| SmartSearch.DoorPluralMatchesSingular | explorer/views.py:92-94 | "двери" and "дверь" score 0.95 through the и→ь rewrite |
| SmartSearch.SimilarityWithTiered | explorer/views.py:120-152 | `calculate_similarity` is 0 or above 0.7 for every pair of words |
| SmartSearch.BestWeight | explorer/views.py:183-198 | a query word's best weight is one of 0, 0.4, 0.6, 0.8, 1.0 |
| SmartSearch.BestWeightIsMax | explorer/views.py:183-198 | the best weight is the maximum weight over the file words, reached by one of them when positive |
| SmartSearch.BestWeightTiered | explorer/views.py:186-198 | with `calculate_similarity` a matched word weighs 0.6, 0.8 or 1.0 |
| SmartSearch.BestWeightTop | explorer/views.py:186-189 | after a weight of 1.0 the later file words change nothing, so the `break` is safe |
| SmartSearch.MatchedCount | explorer/views.py:200-202 | at most every query word is matched |
| SmartSearch.TotalWeightBounds | explorer/views.py:179-202 | the total weight lies between 0.4 (0.6 with tiered similarity) and 1 times the matched count |
| SmartSearch.TokenScore | explorer/views.py:173-215 | the token score lies in [0, 100] |
| SmartSearch.TokenScoreFormula | explorer/views.py:208-215 | with a match, the score is the average weight times 80, plus 20 exactly when every query word matched, and the cap never applies |
| SmartSearch.TokenScoreZero | explorer/views.py:204-206 | the token score is 0 if and only if no query word matched |
| SmartSearch.TokenScoreAllWordsBonus | explorer/views.py:211-213 | all words matched gives at least 68; a missed word keeps the score below 80 |
| SmartSearch.Relevance | explorer/views.py:154-215 | the relevance lies in [0, 100] |
| SmartSearch.PhraseScoresFull | explorer/views.py:157-166 | for non-empty inputs, a normalised query occurring in the normalised name scores 100 |
| SmartSearch.BlankQueryScoresFull | explorer/views.py:157-166 | a non-empty whitespace-only query scores 100 against every non-empty name |
| SmartSearch.RelevanceZero | explorer/views.py:157-206 | the relevance is 0 if and only if an input is empty, or the phrase does not occur and no surviving query word matches |
| SmartSearch.ScoreQueryWord | explorer/views.py:180-198 | the inner loop, `break` included, yields the best weight, and `word_found` exactly when it is positive |
| SmartSearch.ScoreWords | explorer/views.py:173-215 | the outer loop and the aggregation yield the token score |
| SmartSearch.SmartSearchScore | explorer/views.py:154-215 | `smart_search` yields the relevance function |
| FileView.ExtensionFollowsLastDot | explorer/views.py:18 | the extension is the lower-cased text after the last dot |
| FileView.GetFileType | explorer/views.py:16-25 | the media type is tried first: image if and only if it starts with "image"; video if and only if it starts with "video" and not "image"; audio if and only if it starts with "audio" and neither of those |
| FileView.ExtensionTable | explorer/views.py:26-37 | under any other media type: pdf exactly for "pdf", word for "doc"/"docx", excel for "xls"/"xlsx", archive for "zip"/"rar", text for "txt"/"md", and a plain file for every other extension |
| FileView.TypeFollowsExtension | explorer/views.py:26-37 | otherwise only the extension matters |
| FileView.NoExtensionIsFile | explorer/views.py:18-37 | a name without a dot under another media type is a plain file |
| FileView.ExtensionIgnoresCase | explorer/views.py:18 | a name and its lower-cased form have the same extension |
| YandexDisk.StripDiskPrefix | explorer/utils/yandex_disk.py:398-399 | one leading `disk:/` is removed when present, else nothing changes |
| YandexDisk.FolderFullPath | explorer/utils/yandex_disk.py:69-75 | an empty path means the root; the full path always starts with `disk:/`; a prefixed path is kept, any other gets the prefix |
| YandexDisk.FolderFullPathIdempotent | explorer/utils/yandex_disk.py:72-75 | prefixing a full path changes nothing |
| YandexDisk.RelativePath | explorer/utils/yandex_disk.py:396-404 | the relative path is a suffix of the full path |
| YandexDisk.RelativePathCases | explorer/utils/yandex_disk.py:401-404 | below the root it is the rest after the root with every leading `/` gone, so it does not start with `/`; elsewhere it is the de-prefixed path |
| YandexDisk.RelativeOfFullPath | explorer/utils/yandex_disk.py:396-404 | the relative path of the full path of `root/rel` is `rel` |
| YandexDisk.HitsCount | explorer/utils/yandex_disk.py:423-427 | a file is listed under a word once per occurrence in its name, and never under a word of at most 2 characters |
| YandexDisk.HitsMembers | explorer/utils/yandex_disk.py:423-427 | a file's entries are the file, under words of its name longer than 2 |
| YandexDisk.PostingsMembers | explorer/utils/yandex_disk.py:418-427 | every listed file is an input file containing the word, which is longer than 2 |
| YandexDisk.PostingsAppend | explorer/utils/yandex_disk.py:419-427 | the lists keep the input order of the files |
| YandexDisk.AddHitStep | explorer/utils/yandex_disk.py:424-427 | one step of the inner loop adds the file under the word when it is longer than 2 |
| YandexDisk.StartFile | explorer/utils/yandex_disk.py:419-423 | before its words, a file adds nothing |
| YandexDisk.FinishFile | explorer/utils/yandex_disk.py:419-427 | after all its words, the index covers one more file |
| YandexDisk.IndexFile | explorer/utils/yandex_disk.py:420-427 | the inner loop indexes one more file |
| YandexDisk.BuildSearchIndex | explorer/utils/yandex_disk.py:418-427 | the index has exactly the words with a non-empty list as keys (all longer than 2), each mapped to its files in input order, once per occurrence |
| Ranking.DisplayPathRoot | explorer/views.py:331-332 | a relative path without `/` shows 'Корневая папка' |
| Ranking.DisplayPathFolders | explorer/api_views.py:41-43 | with a `/`, the path is folders + `/` + a name without `/`, and the display is the folders joined by " / " |
| Ranking.ScoredSound | explorer/views.py:324-345 | every scored record comes from an input file whose relevance exceeds the threshold |
| Ranking.ScoredComplete | explorer/views.py:324-345 | every file whose relevance exceeds the threshold is scored |
| Ranking.ScoredAboveThreshold | explorer/views.py:328 | every scored record is above the threshold |
| Ranking.InsertPermutes | explorer/views.py:348 | insertion adds exactly the inserted record |
| Ranking.InsertSorted | explorer/views.py:348 | insertion keeps the order non-increasing |
| Ranking.InsertStable | explorer/views.py:348 | insertion keeps each relevance class in order, the new record first |
| Ranking.SortSorted | explorer/views.py:348 | the sort is non-increasing by relevance and a permutation |
| Ranking.SortStable | explorer/views.py:348 | the sort is stable: equal relevances keep their input order |
| Ranking.Take | explorer/views.py:351 | `[:100]` is the prefix of length min(n, 100) |
| Ranking.RankedProperties | explorer/views.py:347-351 | exactly min(number scored, 100) results, non-increasing, above the threshold, scored, and none cut off ranks above one kept |
| Ranking.RankedComplete | explorer/views.py:322-351 | when at most 100 files score above the threshold, every one of them is among the results |
| Ranking.SortKeeps | explorer/views.py:348 | sorting keeps the length and the members |
| Ranking.RankFiles | explorer/views.py:322-351 | the scoring loop, sort and truncation yield the ranked results |
| Views.TrailNames | explorer/views.py:275-285 | the breadcrumb names are the non-empty path segments, in order |
| Views.CrumbLink | explorer/views.py:278-281 | a crumb links to a prefix of the path ending with its segment, which has no `/` |
| Views.TrailLinks | explorer/views.py:276-285 | every crumb has a non-empty name without `/`, linking to a prefix of the path ending with that name |
| Views.BuildBreadcrumbs | explorer/views.py:275-285 | the loop builds the trail of the path, none for the root |
| Views.Search | explorer/views.py:301-366 | an empty query gives an empty page without scoring; otherwise the ranked results above 5, at most 100, with their count |
| ApiViews.UnitIndex | explorer/api_views.py:134-138 | the unit index never exceeds 4 ("ТБ") |
| ApiViews.SizeLabelBounds | explorer/api_views.py:136-140 | for size ≥ 1 the unit is the largest power ≤ 4 not above the size, and the quantity is in [1, 1024) below terabytes |
| ApiViews.SizeLabelExact | explorer/api_views.py:129-140 | a nonzero size is labelled by a quantity that, times its unit's power of 1024, gives back the size |
| ApiViews.DivideStep | explorer/api_views.py:136-137 | one more division by 1024 divides by the next power, and the loop test compares the size with it |
| ApiViews.FormatSize | explorer/api_views.py:129-140 | `format_size(0)` is "0 Б"; otherwise the loop ends with the reference unit and quantity, and the unit names a table entry |
| ApiViews.WithSizesLabels | explorer/api_views.py:45-56 | the results are the ranked records in order; a size text is "0 Б" exactly for size 0, otherwise a quantity that, times its unit's power of 1024, is the size, in [1, 1024) below terabytes |
| ApiViews.ApiSearch | explorer/api_views.py:11-67 | bad JSON and an empty query give 400 errors before scoring; otherwise the ranked results above 10, at most 100, with `results_count` equal to their number |
| ContentBuilder.SelectMembers | explorer/views.py:502-510 | a folder is collected if and only if it is in the walk and passes the filter |
| ContentBuilder.SelectAppend | explorer/views.py:502-510 | collecting over two parts appends their collections |
| ContentBuilder.PreorderCovers | explorer/views.py:502-510 | the walk reaches every top-level folder and every child of a reached folder |
| ContentBuilder.VisitStep | explorer/views.py:503-510 | visiting one more folder appends its own match, then its subtree's |
| ContentBuilder.SearchRecursive | explorer/views.py:502-510 | `search_recursive` appends the matching folders of the subtree, in pre-order |
| ContentBuilder.FindFoldersByKeywords | explorer/views.py:499-513 | the folders whose lower-cased name contains a keyword, in pre-order |
| ContentBuilder.CollectRecursive | explorer/views.py:572-577 | `collect_recursive` appends the folders of the subtree whose path is not excluded, in pre-order |
| ContentBuilder.FolderItems | explorer/views.py:516-540 | one item per child, titled by it; an item has sub-items exactly when the child has children, one per grandchild |
| ContentBuilder.ConvertFolderToItems | explorer/views.py:516-540 | the loop builds exactly those items |
| ContentBuilder.PathsMembers | explorer/views.py:550-553 | a path is used if and only if some folder has it, and there are no more paths than folders |
| ContentBuilder.PathsAppend | explorer/views.py:553 | one more folder adds exactly its path |
| ContentBuilder.UnclaimedProperties | explorer/views.py:549-553 | a category keeps found folders with pairwise different paths, none claimed before |
| ContentBuilder.UnclaimedNonEmpty | explorer/views.py:549-555 | a category keeps something if and only if one of its folders is not yet claimed |
| ContentBuilder.UnclaimedFirst | explorer/views.py:555-557 | the main folder of a category is its first folder not yet claimed |
| ContentBuilder.ClaimFolders | explorer/views.py:549-553 | the loop keeps the unclaimed folders and claims every found path |
| ContentBuilder.StepFacts | explorer/views.py:545-566 | one category adds at most one section, with the next id and its title, and claims its found paths |
| ContentBuilder.StepSection | explorer/views.py:555-566 | a category gets a section exactly when it finds an unclaimed folder, built from the first one |
| ContentBuilder.AfterCategoriesIds | explorer/views.py:545-566 | section ids are 1, 2, … in category order, at most one per category |
| ContentBuilder.AfterCategoriesTitles | explorer/views.py:560-562 | every section is titled after a category |
| ContentBuilder.AfterCategoriesUsed | explorer/views.py:543-553 | the claimed paths are those of every folder some category found |
| ContentBuilder.AccordionShape | explorer/views.py:475-594 | ids 1, 2, …, at most one section per category plus one; "Прочие папки" comes last exactly when some folder's path was not found, built from the first such folder |
| ContentBuilder.RemainingMembers | explorer/views.py:569-582 | "Прочие папки" holds exactly the folders whose path no category found |
| ContentBuilder.AddCategory | explorer/views.py:546-566 | one round of the category loop |
| ContentBuilder.AddCategories | explorer/views.py:545-566 | the category loop over the given categories |
| ContentBuilder.ConvertTreeToAccordionFormat | explorer/views.py:475-594 | `convert_tree_to_accordion_format` builds the accordion for the fourteen main categories |

## Left out

- HTTP and cloud-storage traffic and the Django `cache`: link fetching, publishing, retries with `time.sleep`, the caching around `get_folder_contents` and `build_search_index`. These are network I/O and caching.
- Threaded code: `get_flat_file_list`, `batch_get_links_hyper_optimized`, `mass_preload_all_links`, `ContentBuilder.build_folder_tree_parallel`, `build_content_structure` and the `_AUTO_CONTENT_CACHE` global. Their point is concurrency; the accordion is modelled over an already-built tree.
- Django rendering, the ORM and `FileIndex` (a sequence of records stands for `FileIndex.objects.all()`), `views.index` apart from its breadcrumb loop, `content_page` (a literal data table), explorer/models.py and explorer/urls.py.
- The bot, user and group sync, the management commands and the launch scripts. They are async transport, subprocesses and database batch writes.
- `api_file_info`: a database lookup around the foreign call `urllib.parse.unquote`.
- `difflib.SequenceMatcher` is the parameter `ratio`; its internals are foreign library code.
- Python's regex engine, `\w`, `\s` and Unicode case mapping are a fixed table over ASCII and basic Cyrillic. Characters outside it (other scripts, the Cyrillic extensions) are classed as neither word characters nor changed by lower-casing.
- Floating point: relevances, weights and sizes are exact reals, so float rounding is not modelled.
- ApiViews.FormatSize: returns the unit index and the exact quotient, not the text `f"{size_bytes:.2f} {size_names[i]}"`, because float text formatting is not modelled.
- SmartSearch.GetWordVariations: returns the variant set; Python's `list(variations)` has an arbitrary order, which nothing downstream depends on.
- Ranking.RankFiles: `list.sort(key=..., reverse=True)` is modelled as a functional stable insertion sort on a sequence, not as an in-place sort. It is proved ordered, a permutation and stable, which is what Python guarantees.
- ApiViews.ApiSearch: two POST bodies the source does not handle are not modelled. One is valid JSON that is not an object, where `data.get` raises AttributeError. The other is an object whose `query` is `null` or not a string, where `.strip()` raises AttributeError (explorer/api_views.py:20). Both end in an unhandled exception, an HTTP 500. `JsonBody` has only a missing or a string `query`.
- Ranking.RankFiles: a result record carries only name, display path, full path, size and relevance. The source also copies `modified`, the links, `media_type` and `file_type` unchanged from the row; those are left out of `ScoredResult`, for `search` and `api_search` alike.
- SmartSearch.FilterStopWords: the stop list is a parameter; `smart_search` passes `StopWordList`, a list that keeps the repeated entries of the source's set literal. Only membership matters, as `FilterStopWordsMembers` states. Entries containing a space ("не считая") can never match a `split()` token.
- ContentBuilder.ConvertTreeToAccordionFormat: `folder.get('public_link')` is an `Option`. Ordering by `main_categories` relies on Python 3.7+ dictionary order, which the model takes as the literal's order.
