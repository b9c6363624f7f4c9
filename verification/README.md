# Eclipse Team/Compare: sync classification, line comparison, strategy toggle, compare adapter

A Dafny model of four pieces of the Eclipse Platform Compare and Team plug-ins:

- **`SyncInfo`** (`sync_info.dfy`): the synchronization classifier. `GetSyncKind` models
  `SyncInfo.getSyncKind`. It is the three-way and two-way decision tree over the local handle and
  whether it exists, the optional base, the optional remote and the subscriber's comparison
  criterion. Its result is the Java `int` bit set (a `bv32`) together with the pairs handed to the
  criterion, in call order. Its specification is `Classify`, a reference classification into a tagged union built from two deltas:
  local against base is outgoing, base against remote is incoming. `Encode` and `Decode` convert
  between the tagged union and the bit set.
- **`DocLineComparator`** (`doc_line_comparator.dfy`, with `text_document.dfy`): the line comparator
  handed to the range differencer. The document is a sequence of lines, each with its delimiter.
  `Create` is the constructor: it checks whether the strategies' results may be cached and does the
  line-range arithmetic. `Compare` is the two-pointer scan that compares lines while ignoring
  whitespace, proved equal to "equal after removing whitespace". `RangesEqual` is `rangesEqual` with the
  guard of `extract` corrected as described under "## Findings"; `LinesMatchAsWritten` is the code as written.
- **`ChangeCompareStrategyPropertyAction`** (`change_compare_strategy_action.dfy`): the toggle action.
  It is a class over a compare configuration whose `COMPARE_STRATEGIES` property holds a map
  object. `SetProperty` stores a fresh map with one key added or removed.
- **`SynchronizationCompareAdapter`** (`synchronization_compare_adapter.dfy`): the compare input of a
  model object, its name, and its path string. The path string is built from the labels up its
  parent chain.

`compare_strategy.dfy` holds what the code asks of a compare strategy object, and `wrappers.dfy`
holds `Option`/`Result`. `IDocument` is modelled only as far as the comparator uses it. `TextDocument`
models only what the comparator calls: `getLength`, `getNumberOfLines`, `getLineOfOffset`,
`getLineInformation` and `get(offset, length)`. A `BadLocationException` is `None`.

## Model

| member | source | states |
|---|---|---|
| `SyncInfo.GetSyncKind` | bundles/org.eclipse.team.core/src/org/eclipse/team/core/sync/SyncInfo.java:193-285 | The descriptor is the encoding of the delta-based classification. No auto-merge or manual-conflict bit is ever set. A pseudo-conflict is always conflicting. Two-way results carry no direction. Every three-way result other than IN_SYNC has both a change part and a direction part. At most two comparisons are made, and only ever between handles of existing resources. Precondition: the asserted-impossible triples are excluded. |
| `SyncInfo.IsInSync` | bundles/org.eclipse.team.core/src/org/eclipse/team/core/sync/SyncInfo.java:290-292 | In sync iff the classification is InSync. That holds iff local and remote are present and either local = base = remote under the criterion (three-way) or local = remote (two-way). |
| `SyncInfo.DecodeEncode` | bundles/org.eclipse.team.core/src/org/eclipse/team/core/sync/SyncInfo.java:52-120 | Decoding the bits of any tagged-union state gives that state back, so the bit encoding loses nothing. |
| `SyncInfo.EncodeDecode` | bundles/org.eclipse.team.core/src/org/eclipse/team/core/sync/SyncInfo.java:67-106 | Every bit set that decodes is the encoding of its decoded state. |
| `SyncInfo.ThreeWayNoBase` | bundles/org.eclipse.team.core/src/org/eclipse/team/core/sync/SyncInfo.java:212-232 | With no base: no remote gives exactly OUTGOING\|ADDITION. A remote without a local gives INCOMING\|ADDITION, with no comparison made. Both present gives CONFLICTING\|ADDITION, plus PSEUDO_CONFLICT iff cmp(local, remote). |
| `SyncInfo.ThreeWayLocalOrRemoteGone` | bundles/org.eclipse.team.core/src/org/eclipse/team/core/sync/SyncInfo.java:235-249 | With a base: both sides gone gives CONFLICTING\|DELETION\|PSEUDO_CONFLICT with no comparison. Local gone gives OUTGOING\|DELETION if cmp(base, remote), else CONFLICTING\|CHANGE. Remote gone gives INCOMING\|DELETION if cmp(local, base), else CONFLICTING\|CHANGE. |
| `SyncInfo.ThreeWayAllPresent` | bundles/org.eclipse.team.core/src/org/eclipse/team/core/sync/SyncInfo.java:250-264 | Compares (local, base) and then (base, remote). The four outcomes of the two comparisons give IN_SYNC, INCOMING\|CHANGE, OUTGOING\|CHANGE or CONFLICTING\|CHANGE. |
| `SyncInfo.TwoWay` | bundles/org.eclipse.team.core/src/org/eclipse/team/core/sync/SyncInfo.java:267-283 | Two-way: no remote gives DELETION; no local gives ADDITION; otherwise IN_SYNC if cmp(local, remote), else CHANGE. |
| `DocLineComparator.Create` | bundles/org.eclipse.compare/compare/org/eclipse/compare/internal/DocLineComparator.java:49-94 | A cache is kept iff the strategy array is non-null, non-empty and every strategy says its ignored regions are reusable. With no region: line offset 0, the document's line count and length. With an empty region: one line. Otherwise: end line minus start line plus one, with the documented fallbacks. For a region inside the document, the lines lie inside the document and there is at least one. |
| `DocLineComparator.ScanStrategies` | bundles/org.eclipse.compare/compare/org/eclipse/compare/internal/DocLineComparator.java:56-66 | The loop answers true exactly when the strategy array is non-null, non-empty and every strategy says its ignored regions are reusable; it stops at the first one that does not. |
| `DocLineComparator.GetRangeCount` | bundles/org.eclipse.compare/compare/org/eclipse/compare/internal/DocLineComparator.java:101-103 | The number of lines the constructor gave the comparator (see `DocLineComparator.Create` for its value). |
| `DocLineComparator.GetTokenStart` | bundles/org.eclipse.compare/compare/org/eclipse/compare/internal/DocLineComparator.java:108-115 | The offset at which the line starts in the document, for a line inside it; the document length otherwise (the BadLocationException fallback). Always between 0 and the document length. |
| `DocLineComparator.GetTokenLength` | bundles/org.eclipse.compare/compare/org/eclipse/compare/internal/DocLineComparator.java:108-123 | The length of a document line counts its delimiter. It is 0 for lines past the document and minus the document length for the line just before it. This comes from getTokenStart falling back to the document length. |
| `DocLineComparator.Extract` | bundles/org.eclipse.compare/compare/org/eclipse/compare/internal/DocLineComparator.java:209-219 | The text of the line without its delimiter. It is "" when the line is at or past the line count, or outside the document. |
| `DocLineComparator.SkipRangeComparison` | bundles/org.eclipse.compare/compare/org/eclipse/compare/internal/DocLineComparator.java:164-166 | Never skips. |
| `DocLineComparator.ExtractPairAsWritten` | bundles/org.eclipse.compare/compare/org/eclipse/compare/internal/DocLineComparator.java:170-201 | The written guard: a null strategy array throws NullPointerException. |
| `DocLineComparator.ExtractPair` | bundles/org.eclipse.compare/compare/org/eclipse/compare/internal/DocLineComparator.java:170-201 | With the corrected guard (see "## Findings"), a non-empty strategy array gives each side's line run through the strategies against the other side's line, and a null or empty array gives the two plain line texts. It fails exactly when there are strategies, this side caches and the other has no cache (line 182); for comparators whose cache flag the constructor set, that case always fails. |
| `DocLineComparator.ExtractPairAgreesWithWritten` | bundles/org.eclipse.compare/compare/org/eclipse/compare/internal/DocLineComparator.java:170-196 | With a non-null, non-empty strategy array the corrected extract and the one as written give the same result, so the two differ only for a null or empty array. |
| `DocLineComparator.ExtractPairWithoutStrategies` | bundles/org.eclipse.compare/compare/org/eclipse/compare/internal/DocLineComparator.java:173-198 | Without strategies the written code throws, while the corrected one returns the two lines' texts. |
| `DocLineComparator.Compare` | bundles/org.eclipse.compare/compare/org/eclipse/compare/internal/DocLineComparator.java:221-251 | The two-pointer scan returns true iff the strings are equal once every whitespace character is removed. It terminates. |
| `DocLineComparator.InsertedWhitespaceIsIgnored` | bundles/org.eclipse.compare/compare/org/eclipse/compare/internal/DocLineComparator.java:221-251 | Inserting whitespace anywhere in a line does not change whether it compares equal. |
| `DocLineComparator.RangesEqual` | bundles/org.eclipse.compare/compare/org/eclipse/compare/internal/DocLineComparator.java:134-152 | rangesEqual with the `&&` guard in extract (see "## Findings"): whitespace-insensitive or exact comparison of the extracted lines, after the token-length shortcut, or the exception extract throws. It differs from the code as written in two cases. With a null strategy array the Java throws NullPointerException at line 173, but this answers. With an empty array the Java runs applyCompareStrategies (lines 192-195), but this compares the plain texts. |
| `DocLineComparator.LinesMatchAsWritten` | bundles/org.eclipse.compare/compare/org/eclipse/compare/internal/DocLineComparator.java:134-152 | rangesEqual with the `\|\|` guard of line 173 as written: a foreign or null comparator gives false, and it throws only when extracting from a comparator with a null strategy array, or when a caching side faces a side without a cache. `LinesMatchWithoutStrategies` shows the throw for a null array; `LinesMatchAgreesWithWritten` shows agreement with `RangesEqual` for a non-empty array. |
| `DocLineComparator.LinesMatchWithoutStrategies` | bundles/org.eclipse.compare/compare/org/eclipse/compare/internal/DocLineComparator.java:134-152 | As written (`LinesMatchAsWritten`), a comparator with a null strategy array throws NullPointerException whenever rangesEqual extracts lines; with the intended guard it answers. |
| `DocLineComparator.LinesMatchAgreesWithWritten` | bundles/org.eclipse.compare/compare/org/eclipse/compare/internal/DocLineComparator.java:134-152 | With a non-empty strategy array, rangesEqual answers the same under the written guard and the intended one. |
| `DocLineComparator.ForeignComparatorNeverMatches` | bundles/org.eclipse.compare/compare/org/eclipse/compare/internal/DocLineComparator.java:136-151 | A null comparator or one of another class never matches. |
| `DocLineComparator.PlainLinesMatch` | bundles/org.eclipse.compare/compare/org/eclipse/compare/internal/DocLineComparator.java:144-151 | Without strategies and without ignoring whitespace, two lines match iff their texts are equal and they have the same length with delimiters, for lines inside both comparators and documents. |
| `DocLineComparator.DifferentTokenLengthsNeverMatch` | bundles/org.eclipse.compare/compare/org/eclipse/compare/internal/DocLineComparator.java:144-151 | Without strategies and without ignoring whitespace, lines of different token length never match, for any indices, including those outside the document. |
| `DocLineComparator.WhitespaceLinesMatch` | bundles/org.eclipse.compare/compare/org/eclipse/compare/internal/DocLineComparator.java:139-142 | When ignoring whitespace without strategies, two lines match iff their texts are equal up to whitespace. |
| `DocLineComparator.LinesMatchReflexiveSymmetric` | bundles/org.eclipse.compare/compare/org/eclipse/compare/internal/DocLineComparator.java:134-152 | Without strategies, a line matches itself, and matching is symmetric between comparators with the same whitespace setting. |
| `ChangeCompareStrategyPropertyAction.WithStrategy` | bundles/org.eclipse.compare/compare/org/eclipse/compare/internal/ChangeCompareStrategyPropertyAction.java:59-67 | The new map has the id mapped to the strategy (state true) or has no id (state false). Every other key and value is carried over. |
| `ChangeCompareStrategyPropertyAction.ToggleTwice` | bundles/org.eclipse.compare/compare/org/eclipse/compare/internal/ChangeCompareStrategyPropertyAction.java:80-84 | Two toggles restore membership of the id. An absent id restores the map exactly. A present id ends up mapped to this action's strategy. |
| `ChangeCompareStrategyPropertyAction.Action.GetProperty` | bundles/org.eclipse.compare/compare/org/eclipse/compare/internal/ChangeCompareStrategyPropertyAction.java:72-78 | True exactly when the strategy id is a key of the COMPARE_STRATEGIES map; an unset property reads as an empty map, so the answer is then false. |
| `ChangeCompareStrategyPropertyAction.Action.constructor` | bundles/org.eclipse.compare/compare/org/eclipse/compare/internal/ChangeCompareStrategyPropertyAction.java:40-55 | Attaches to the configuration with checked showing membership. A strategy enabled initially is then checked and added to a fresh map. |
| `ChangeCompareStrategyPropertyAction.Action.SetProperty` | bundles/org.eclipse.compare/compare/org/eclipse/compare/internal/ChangeCompareStrategyPropertyAction.java:57-70 | With a configuration, it stores a freshly allocated map equal to the previous entries with the id added or removed, and the previous map object is unchanged. Without one, it modifies nothing. |
| `ChangeCompareStrategyPropertyAction.Action.SetChecked` | bundles/org.eclipse.compare/compare/org/eclipse/compare/internal/ChangeCompareStrategyPropertyAction.java:86-89 | Sets the checked state. |
| `ChangeCompareStrategyPropertyAction.Action.SetCompareConfiguration` | bundles/org.eclipse.compare/compare/org/eclipse/compare/internal/ChangeCompareStrategyPropertyAction.java:91-98 | Attaches the configuration and leaves checked equal to membership of the id. |
| `ChangeCompareStrategyPropertyAction.Action.Run` | bundles/org.eclipse.compare/compare/org/eclipse/compare/internal/ChangeCompareStrategyPropertyAction.java:80-84 | Flips membership of the id in a fresh map and leaves checked equal to the new membership. |
| `ChangeCompareStrategyPropertyAction.Action.PropertyChange` | bundles/org.eclipse.compare/compare/org/eclipse/compare/internal/ChangeCompareStrategyPropertyAction.java:100-104 | Only COMPARE_STRATEGIES events with a map value set checked, to membership of the id. All other events leave it alone. An event carrying the configuration's own map re-synchronises the action. |
| `SynchronizationCompareAdapter.AsCompareInput` | bundles/org.eclipse.team.ui/src/org/eclipse/team/ui/mapping/SynchronizationCompareAdapter.java:46-56 | Non-null iff the object maps to a FILE resource with a diff in the context's diff tree. The input then wraps that diff. |
| `SynchronizationCompareAdapter.HasCompareInput` | bundles/org.eclipse.team.ui/src/org/eclipse/team/ui/mapping/SynchronizationCompareAdapter.java:61-63 | True iff some FILE resource of the object has a diff. |
| `SynchronizationCompareAdapter.GetName` | bundles/org.eclipse.team.ui/src/org/eclipse/team/ui/mapping/SynchronizationCompareAdapter.java:68-88 | The name is always one of the adapter's label, the resource name, the resource-model message or the provider descriptor's label, or "". `NamePriority` gives the order. |
| `SynchronizationCompareAdapter.NamePriority` | bundles/org.eclipse.team.ui/src/org/eclipse/team/ui/mapping/SynchronizationCompareAdapter.java:68-88 | The order of the name fallbacks: a non-null adapter label, then the resource name, then the resource-model message or the provider descriptor's label, then "". |
| `SynchronizationCompareAdapter.Segments` | bundles/org.eclipse.team.ui/src/org/eclipse/team/ui/mapping/SynchronizationCompareAdapter.java:98-105 | The collected segments are never empty strings, and there are no more of them than objects in the parent chain. |
| `SynchronizationCompareAdapter.SegmentsAreLabelsRootFirst` | bundles/org.eclipse.team.ui/src/org/eclipse/team/ui/mapping/SynchronizationCompareAdapter.java:98-105 | Prepending each label gives the chain's non-empty labels in reverse, root first. |
| `SynchronizationCompareAdapter.GetPathString` | bundles/org.eclipse.team.ui/src/org/eclipse/team/ui/mapping/SynchronizationCompareAdapter.java:93-116 | With no adapter, or no non-empty segment, the result is getName. Otherwise it is the segments appended one by one to the empty path. |
| `SynchronizationCompareAdapter.BuildPath` | bundles/org.eclipse.team.ui/src/org/eclipse/team/ui/mapping/SynchronizationCompareAdapter.java:106-113 | The path is the segments appended in order to the empty path, separated by '/'; `SplitJoin` reads the same segments back from it. |
| `SynchronizationCompareAdapter.RootPathIsName` | bundles/org.eclipse.team.ui/src/org/eclipse/team/ui/mapping/SynchronizationCompareAdapter.java:93-116 | For an object with a label and no parent, the path string equals its name. |
| `SynchronizationCompareAdapter.SplitJoin` | bundles/org.eclipse.team.ui/src/org/eclipse/team/ui/mapping/SynchronizationCompareAdapter.java:106-112 | A path built from non-empty segments without '/' splits back into exactly those segments. |

## Findings

| source | as written | input that shows it | evidently intended | confidence | as-written member | corrected member |
|---|---|---|---|---|---|---|
| bundles/org.eclipse.compare/compare/org/eclipse/compare/internal/DocLineComparator.java:173 | The guard is `fCompareStrategies!=null \|\| fCompareStrategies.length>0`. A null array makes it read `length` of null, so the plain branch at line 198 is unreachable. | A comparator created with a null strategy array and any call of rangesEqual that extracts lines. That is either with whitespace ignored, or two lines of equal token length. | `&&`: no strategies (null or empty) compares the plain line texts | not executed | `DocLineComparator.ExtractPairAsWritten` and `DocLineComparator.LinesMatchAsWritten`, shown by `DocLineComparator.ExtractPairWithoutStrategies` and `DocLineComparator.LinesMatchWithoutStrategies` | `DocLineComparator.ExtractPair`, used by `DocLineComparator.RangesEqual` and proved in `DocLineComparator.PlainLinesMatch` and `DocLineComparator.WhitespaceLinesMatch` |

## Left out

- Progress monitors (`beginTask`, `subMonitorFor`, `done`), cancellation, and any I/O or exception inside the comparison criterion are left out. The criterion is a pure function `cmp`.
- `SyncInfo.GetSyncKind` requires a classifiable triple. The Java code fails `Assert.isTrue(false)` on the other triples and does not handle them.
- The trivial getters of `SyncInfo` (`getLocal`, `getBase`, `getRemote`, `getSubscriber`) are left out. They are the fields of `Triple`, and the mode flag and the criterion are parameters.
- The `LRUCache` of strategy results is taken as transparent. Its entries are keyed by this side's line index only, although the cached value also depends on the other line; that dependence is not modelled.
- `Utilities.applyCompareStrategies` is not part of this model. It is the function parameter `apply`.
- `Character.isWhitespace` is the function parameter `isWhitespace`. Java `char` is a UTF-16 unit, but here it is a Dafny `char`.
- Java `int` overflow is not modelled. This covers `start + fLength` in the constructor, `fLineOffset + line` in getTokenStart and extract (lines 110 and 212), `line+1` and the subtraction in getTokenLength (line 122). Integers are unbounded here.
- `ChangeCompareStrategyPropertyAction.Action.GetProperty` and `Action.Run` require a configuration. The Java code throws NullPointerException without one.
- `Action.SetCompareConfiguration` and the constructor take a non-null configuration for the same reason.
- A `COMPARE_STRATEGIES` property value that is not a map (a ClassCastException in Java) is not modelled.
- Listener registration and removal are left out: `addPropertyChangeListener`, `removePropertyChangeListener`, `dispose`, `widgetDisposed`.
- The change events a `CompareConfiguration` fires are left out. `SetProperty` does not call `PropertyChange` back; `PropertyChange` is modelled on its own.
- Label, tooltip and image setup is left out (`Utilities.initAction`, `initToggleAction`, `setImageDescriptor`, `setId`), along with `getStrategyId` and `setInput`, which only forward to the descriptor or the strategy.
- `Path.append` is modelled as joining with '/'. Its canonicalisation of `.` and `..` segments and its handling of separators inside a label are left out.
- `SynchronizationCompareAdapter.GetPathString` takes the parent chain as a ghost argument. An object whose parent chain never ends (the Java loop would not terminate) is not modelled.
- `ModelProvider` is not part of this model. `RESOURCE_MODEL_PROVIDER_ID` takes the platform's value, and the text of `TeamUIMessages.SynchronizationCompareAdapter_0` is the `resourceModelLabel` field of `Workbench`.
- `ResourceDiffCompareInput` is reduced to the diff node it wraps.
- `Resource` is identified by its name and type only. An IResource is identified by its full path, so two files with the same name in different folders are one key of `diffTree` here.
- `CompareEditorContributor`, `RepositoriesView`, `GetAsProjectAction`, `ISynchronizeManager`, `IStructureCreator3` and the CVS subscriber test are not part of this model. They are UI glue, interfaces or tests against a live server.
