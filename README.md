# Dandelion-Datatables configuration core, in Dafny

This project models the part of Dandelion-Datatables that turns the options of
a table and its columns into the table's final configuration, and proves
properties of that model. It covers:

- **The staging → process → merge pipeline of `ConfigUtils`** (module `ConfigUtils`, over
  the association lists of module `Entries`). Staged options are copied over
  the configuration. Every option's processor then runs once, in the map's
  iteration order. Finally the staging map is merged over the processed
  values. `storeTableInRequest` appends the table to the request's list.
- **The option processors.**
  - `SortDirectionProcessor` is the comma-separated, all-or-nothing parser of sort
    directions.
  - The AJAX pipelining and reload-function processors (module
    `AjaxProcessors`) are modelled from their unit tests.
- **The extensions' `setup`** (modules `ServerSideFeature`, `ScrollerPlugin`,
  `SortingFeature`, `Bootstrap2Theme`, `AjaxFeature`). Each one appends to
  the contributions of module `Extension`: bundles, DataTables parameters
  with their merge mode, callbacks, and JavaScript run when the document is
  ready. The extension names are the constants `SERVER_SIDE_FEATURE_NAME`
  (`"serverSide"`), `SCROLLER_PLUGIN_NAME` (`"scroller"`),
  `SORTING_FEATURE_NAME` (`"sorting"`) and `BOOTSTRAP2_THEME_NAME`
  (`"bootstrap2"`).
- **The callback registry.**
  - `Callback` (module `Callbacks`) provides the linear searches `hasCallback`
    and `findByType`, and `appendCode`.
  - The JSP `<datatables:callback>` tag (module `CallbackTag`) resolves the
    type, builds the call string, and then either appends it to the
    callback of that type or registers a new one.
- **The per-format export configurations.** Both the JSP
  `<datatables:export>` tag (module `ExportTag`) and the Thymeleaf
  `dt:<format>:url` header attribute (module `TheadExportLinkUrl`) get or
  create the configuration of a format, then update it.
- **The fluent `HtmlTableBuilder`.** Column and element steps build up the
  header columns. `build` then folds each cell's text from its column's
  elements.
- **`DomUtils.findElement`**, the recursive pre-order element search, in both
  overloads.
- **The `DatatableBundles` catalogue** of asset-bundle names, with its
  run-time renaming.

Objects whose fields the source updates in place are Dafny classes whose
methods carry `modifies` clauses. These are:

- `TableConfiguration`, `ColumnConfiguration`, `Request`;
- `Callback`, the table's callback list;
- `ExportConf` and the export-configuration map;
- the builder's `Steps`;
- a processor's map entry;
- an extension's contributions;
- the bundle names.

Each such method is proved against a pure specification function, and the
properties the code promises are proved as lemmas about those functions.

Java's string operations are written out explicitly:

- `String.split` drops trailing empty strings (`JavaSplit`);
- `trim` removes characters up to U+0020;
- `toUpperCase` and `toLowerCase` act on ASCII letters;
- `StringUtils.isBlank` is modelled as `IsBlank`;
- `null` is `None`.

Two of these are approximations (see "## Left out"): `ToUpper` and `ToLower`
change ASCII letters only, and `IsBlank` counts only the ASCII and
U+001C..U+001F whitespace of `Character.isWhitespace`.

Unseen collaborators are parameters or oracles:

- property lookup;
- `MessageFormat`;
- `StringUtils.escape`;
- the URL processing;
- `ProcessorUtils.getValueAfterProcessingBundles`;
- `SortType.findByName`;
- the option processors as `ConfigUtils` calls them;
- the lists of possible enum values that `EnumUtils.printPossibleValuesOf` prints in error messages, and the text of the `SortDirection.values()` array in the sort-direction error.

## Model

| member | source | states |
|---|---|---|
| Entries.IndexOf | datatables-core/src/main/java/com/github/dandelion/datatables/core/util/ConfigUtils.java:81-82 | a key's position in a map is its first occurrence, and there is none exactly when the key is absent |
| Entries.Put | datatables-core/src/main/java/com/github/dandelion/datatables/core/util/ConfigUtils.java:81-82 | `put` maps the key to the value and leaves every other key's value alone; a present key keeps its place and an absent one goes last; keys stay unique |
| Entries.PutAll | datatables-core/src/main/java/com/github/dandelion/datatables/core/util/ConfigUtils.java:120 | `putAll` keeps the keys of a map unique |
| Entries.PutAllOverwrites | datatables-core/src/main/java/com/github/dandelion/datatables/core/util/ConfigUtils.java:120 | after `putAll`, every key of the argument maps to the argument's value and every other key keeps its old value |
| Entries.PutAllKeepsKeys | datatables-core/src/main/java/com/github/dandelion/datatables/core/util/ConfigUtils.java:120 | `putAll` never removes a key |
| ConfigUtils.ApplyStagingOptions | datatables-core/src/main/java/com/github/dandelion/datatables/core/util/ConfigUtils.java:79-84 | a null configuration map raises the NullPointerException exactly when something is staged, and then nothing changes; otherwise the configuration becomes the old one with every staged entry put over it in order (so staged keys take staged values and the others keep theirs, by PutAllOverwrites); the staging map and the processor record are unchanged |
| ConfigUtils.Calls | datatables-core/src/main/java/com/github/dandelion/datatables/core/util/ConfigUtils.java:110-117 | processing makes exactly one processor call per entry, in iteration order, each with that entry's key and value and with the column configuration present or not as the overload says |
| ConfigUtils.Staged | datatables-core/src/main/java/com/github/dandelion/datatables/core/util/ConfigUtils.java:110-117 | what the processors stage, accumulated into the staging map, is still a map (unique keys) |
| ConfigUtils.RunProcessors | datatables-core/src/main/java/com/github/dandelion/datatables/core/util/ConfigUtils.java:110-117 | the processing loop replaces each entry's value by its processor's result, accumulates what the processors stage, and records one call per entry in order |
| ConfigUtils.ProcessingStep | datatables-core/src/main/java/com/github/dandelion/datatables/core/util/ConfigUtils.java:110-117 | one loop iteration rewrites only entry i, puts only that processor's staged entries, and adds exactly one call |
| ConfigUtils.ProcessedKeepsKeys | datatables-core/src/main/java/com/github/dandelion/datatables/core/util/ConfigUtils.java:110-117 | processors change values only: the keys and their order are kept |
| ConfigUtils.MergeAfterProcessing | datatables-core/src/main/java/com/github/dandelion/datatables/core/util/ConfigUtils.java:119-120 | after the final merge every staged key holds its staged value and every other key holds its processor's value |
| ConfigUtils.ProcessTableOptions | datatables-core/src/main/java/com/github/dandelion/datatables/core/util/ConfigUtils.java:104-121 | a null configuration map leaves the table configuration unchanged; otherwise the map becomes the processed entries with the staging map put over them, the staging map is the accumulated one, and exactly one call per entry (no column) is recorded, in order |
| ConfigUtils.ApplyStagingOptionsAndExtensions | datatables-core/src/main/java/com/github/dandelion/datatables/core/util/ConfigUtils.java:144-152 | a null configuration map raises the NullPointerException exactly when some option is staged, and then nothing changes (with nothing staged the extensions are still merged); otherwise the column's options get the staged options put over them, and its staging extensions get the staged extensions put over them by key; the staging configurations are unchanged |
| ConfigUtils.ProcessColumnOptions | datatables-core/src/main/java/com/github/dandelion/datatables/core/util/ConfigUtils.java:170-185 | as for a table, but every call carries the column configuration and the column's staging configurations are merged; the table's options and staging map are unchanged, and only its call record grows |
| ConfigUtils.AfterStoring | datatables-core/src/main/java/com/github/dandelion/datatables/core/util/ConfigUtils.java:200-210 | storing a table yields the old list (an absent list counting as empty) with the table appended |
| ConfigUtils.StoreEachInCallOrder | datatables-core/src/main/java/com/github/dandelion/datatables/core/util/ConfigUtils.java:200-210 | storing tables one by one into a request without a list yields exactly those tables in call order |
| ConfigUtils.StoreTableInRequest | datatables-core/src/main/java/com/github/dandelion/datatables/core/util/ConfigUtils.java:200-210 | the request's list is created as `[table]` or has the table appended |
| Callbacks.JsFunction.AppendCode | datatables-core/src/main/java/com/github/dandelion/datatables/core/option/Callback.java:83-85 | appending code puts the fragment at the end of the body, keeps the earlier fragments and the arguments |
| Callbacks.Callback.FromContent | datatables-core/src/main/java/com/github/dandelion/datatables/core/option/Callback.java:57-60 | the callback has the type, and a function whose body is the content and whose arguments are exactly the type's |
| Callbacks.Callback.constructor | datatables-core/src/main/java/com/github/dandelion/datatables/core/option/Callback.java:62-65 | the callback has exactly the given type and function |
| Callbacks.Callback.SetType | datatables-core/src/main/java/com/github/dandelion/datatables/core/option/Callback.java:71-73 | only the type changes |
| Callbacks.Callback.SetFunction | datatables-core/src/main/java/com/github/dandelion/datatables/core/option/Callback.java:79-81 | only the function changes |
| Callbacks.Callback.AppendCode | datatables-core/src/main/java/com/github/dandelion/datatables/core/option/Callback.java:83-85 | the code goes at the end of the body; the type is unchanged |
| Callbacks.HasCallback | datatables-core/src/main/java/com/github/dandelion/datatables/core/option/Callback.java:87-96 | true exactly when the list is not null and some callback in it has the type (false for a null list) |
| Callbacks.FindByType | datatables-core/src/main/java/com/github/dandelion/datatables/core/option/Callback.java:98-105 | null exactly when no callback has the type (so non-null exactly when HasCallback is true); otherwise the first callback of that type in list order |
| CallbackTag.ValueOf | datatables-jsp/src/main/java/com/github/dandelion/datatables/jsp/tag/CallbackTag.java:113-114 | the callback type whose constant is exactly that name, and none exactly when no constant has it |
| CallbackTag.CallCode | datatables-jsp/src/main/java/com/github/dandelion/datatables/jsp/tag/CallbackTag.java:129-139 | the call is `return ` (only for a type with a return), the function, `(`, the type's arguments joined by `,`, and `);` |
| CallbackTag.Register | datatables-jsp/src/main/java/com/github/dandelion/datatables/jsp/tag/CallbackTag.java:129-139 | one tag keeps one callback per type: the types are unchanged when the type is registered, and grow by that type otherwise |
| CallbackTag.RegisterNew | datatables-jsp/src/main/java/com/github/dandelion/datatables/jsp/tag/CallbackTag.java:134-139 | for an unregistered type exactly one new callback is added, last, whose body is the code and whose arguments are the type's |
| CallbackTag.RegisterCount | datatables-jsp/src/main/java/com/github/dandelion/datatables/jsp/tag/CallbackTag.java:129-139 | the number of callbacks is unchanged when the type is registered, and one more otherwise |
| CallbackTag.RegisterEffect | datatables-jsp/src/main/java/com/github/dandelion/datatables/jsp/tag/CallbackTag.java:129-133 | the callback of the type gets the code appended to its body with its arguments kept, every other callback is untouched, and a new type gets a callback whose body is exactly the code |
| CallbackTag.RegisterAll | datatables-jsp/src/main/java/com/github/dandelion/datatables/jsp/tag/CallbackTag.java:129-139 | a sequence of tags keeps one callback per type |
| CallbackTag.TagsOfOneTypeShareOneCallback | datatables-jsp/src/main/java/com/github/dandelion/datatables/jsp/tag/CallbackTag.java:129-139 | several tags of one new type yield a single callback whose body holds their calls in tag order |
| CallbackTag.TableCallbacks.HasCallback | datatables-jsp/src/main/java/com/github/dandelion/datatables/jsp/tag/CallbackTag.java:129 | true exactly when a callback of the type is registered |
| CallbackTag.TableCallbacks.GetCallback | datatables-jsp/src/main/java/com/github/dandelion/datatables/jsp/tag/CallbackTag.java:130 | the first registered callback of the type, null exactly when there is none |
| CallbackTag.TableCallbacks.AppendToCallback | datatables-jsp/src/main/java/com/github/dandelion/datatables/jsp/tag/CallbackTag.java:129-133 | appending to the registered callback of the type changes the registry exactly as Register says |
| CallbackTag.TableCallbacks.AddCode | datatables-jsp/src/main/java/com/github/dandelion/datatables/jsp/tag/CallbackTag.java:129-139 | the register-or-append branch changes the registry exactly as Register says |
| CallbackTag.TableCallbacks.RegisterCallback | datatables-jsp/src/main/java/com/github/dandelion/datatables/jsp/tag/CallbackTag.java:136-138 | the callback is appended to the list, which is created if null |
| CallbackTag.CallbackTagHandler.Apply | datatables-jsp/src/main/java/com/github/dandelion/datatables/jsp/tag/CallbackTag.java:126-139 | the function attribute is replaced by its bundle-processed value, and the registry changes as Register says for the call built from it |
| CallbackTag.CallbackTagHandler.DoEndTag | datatables-jsp/src/main/java/com/github/dandelion/datatables/jsp/tag/CallbackTag.java:106-143 | nothing changes outside the first iteration; an unknown type (after upper-casing and trimming) gives the error quoting the raw type and the possible values and changes nothing; otherwise the type attribute is kept, the function attribute is bundle-processed and the call is registered or appended |
| SortDirectionProcessor.DirectionValueOf | datatables-core/src/main/java/com/github/dandelion/datatables/core/processor/column/SortDirectionProcessor.java:51-52 | the Direction named exactly by the token, and none exactly when no Direction has that name |
| SortDirectionProcessor.ParseValue | datatables-core/src/main/java/com/github/dandelion/datatables/core/processor/column/SortDirectionProcessor.java:47-59 | parsing succeeds exactly when every token is a Direction name, and then yields one Direction per token in token order |
| SortDirectionProcessor.ParseSortDirections | datatables-core/src/main/java/com/github/dandelion/datatables/core/processor/column/SortDirectionProcessor.java:47-57 | the token loop computes exactly ParseValue |
| SortDirectionProcessor.ParseRendered | datatables-core/src/main/java/com/github/dandelion/datatables/core/processor/column/SortDirectionProcessor.java:47-59 | round trip: the comma-joined names of any non-empty list of Directions parse back to that list |
| SortDirectionProcessor.ParseOfNames | datatables-core/src/main/java/com/github/dandelion/datatables/core/processor/column/SortDirectionProcessor.java:47-59 | a value whose tokens are the names of a list of Directions parses to that list |
| SortDirectionProcessor.TokensOfJoin | datatables-core/src/main/java/com/github/dandelion/datatables/core/processor/column/SortDirectionProcessor.java:48 | upper-case non-empty names without commas, joined by `,`, split back into themselves |
| SortDirectionProcessor.ParseIgnoresCase | datatables-core/src/main/java/com/github/dandelion/datatables/core/processor/column/SortDirectionProcessor.java:48 | two values equal after upper-casing parse alike: parsing is case-insensitive |
| SortDirectionProcessor.InvalidTokenRejected | datatables-core/src/main/java/com/github/dandelion/datatables/core/processor/column/SortDirectionProcessor.java:50-57 | one token that names no Direction makes the whole value fail (all or nothing) |
| SortDirectionProcessor.SpaceAfterCommaRejected | datatables-core/src/main/java/com/github/dandelion/datatables/core/processor/column/SortDirectionProcessor.java:48-52 | tokens are not trimmed: `"ASC, DESC"` is rejected |
| SortDirectionProcessor.TrailingCommaAccepted | datatables-core/src/main/java/com/github/dandelion/datatables/core/processor/column/SortDirectionProcessor.java:48 | `String.split` drops the trailing empty token: `"DESC,"` parses to `[DESC]` |
| SortDirectionProcessor.SortDirectionProcessorHandler.DoProcess | datatables-core/src/main/java/com/github/dandelion/datatables/core/processor/column/SortDirectionProcessor.java:45-61 | a blank value changes nothing; an invalid one gives the error quoting the whole raw value, followed by the text of the `SortDirection.values()` array, and changes nothing; a valid one stores the parsed list under the token and changes no other setting |
| AjaxProcessors.ParseBooleanExamples | datatables-core/src/test/java/com/github/dandelion/datatables/core/processor/ajax/AjaxPipeliningProcessorTest.java:54-92 | `"true"` in any case is true; `"false"`, `"weird"` and `""` are false without error |
| AjaxProcessors.ProcessPipelining | datatables-core/src/test/java/com/github/dandelion/datatables/core/processor/ajax/AjaxPipeliningProcessorTest.java:54-92 | the entry becomes the parsed boolean; true registers exactly PipeliningFeature and puts the default pipe size under AJAX_PIPESIZE when no pipe size is configured, keeping a configured one; false leaves the extensions (possibly null) and the options as they were |
| AjaxProcessors.PipelinedOptions | datatables-core/src/test/java/com/github/dandelion/datatables/core/processor/ajax/AjaxPipeliningProcessorTest.java:54-72 | every existing option keeps its value; enabling adds exactly AJAX_PIPESIZE, holding the default, when it was absent; disabling adds nothing |
| AjaxProcessors.TableState.AddRequestBundles | datatables-core/src/test/java/com/github/dandelion/datatables/core/processor/ajax/AjaxReloadFunctionTest.java:76-77 | the names are added to the request's bundles in order; nothing else changes |
| AjaxProcessors.TableState.RegisterExtension | datatables-core/src/test/java/com/github/dandelion/datatables/core/processor/ajax/AjaxReloadFunctionTest.java:62 | the extension is added to the set, created if null; nothing else changes |
| AjaxProcessors.ProcessReloadFunction | datatables-core/src/test/java/com/github/dandelion/datatables/core/processor/ajax/AjaxReloadFunctionTest.java:56-85 | on a malformed value the error is returned and nothing changes; otherwise the entry becomes the function name, the bundle names are added to the request, and AjaxReloadFeature is registered |
| AjaxProcessors.PlainFunctionName | datatables-core/src/test/java/com/github/dandelion/datatables/core/processor/ajax/AjaxReloadFunctionTest.java:56-64 | a value without `#` is kept as the function name and adds no bundle |
| AjaxProcessors.BundlesThenFunction | datatables-core/src/test/java/com/github/dandelion/datatables/core/processor/ajax/AjaxReloadFunctionTest.java:67-78 | `b1, b2,…#f` yields the trimmed names `b1, b2, …` and the function `f` |
| AjaxProcessors.SplitAtHash | datatables-core/src/test/java/com/github/dandelion/datatables/core/processor/ajax/AjaxReloadFunctionTest.java:67-78 | a value `x#f` splits into exactly `x` and `f` |
| AjaxProcessors.ExtraSegmentsDropped | datatables-core/src/test/java/com/github/dandelion/datatables/core/processor/ajax/AjaxReloadFunctionTest.java:67-78 | `x#f#rest` is accepted: the bundles come from x, the function is f, and rest is dropped |
| AjaxProcessors.EmptyBundleSegmentRejected | datatables-core/src/test/java/com/github/dandelion/datatables/core/processor/ajax/AjaxReloadFunctionTest.java:81-85 | `#f` (an empty bundle segment) is an error |
| Extension.Contributions.AddBundle | datatables-core/src/main/java/com/github/dandelion/datatables/core/extension/plugin/ScrollerPlugin.java:59 | the bundle is appended; nothing else changes |
| Extension.Contributions.AddParameter | datatables-core/src/main/java/com/github/dandelion/datatables/core/extension/plugin/ScrollerPlugin.java:64-74 | the parameter is appended with its merge mode; nothing else changes |
| Extension.Contributions.AddCallback | datatables-core/src/main/java/com/github/dandelion/datatables/core/extension/feature/ServerSideFeature.java:91 | the callback is appended; nothing else changes |
| Extension.Contributions.AppendToAfterStartDocumentReady | datatables-core/src/main/java/com/github/dandelion/datatables/core/extension/feature/ServerSideFeature.java:85 | the JavaScript is appended; nothing else changes |
| Extension.Writes | datatables-core/src/main/java/com/github/dandelion/datatables/core/extension/plugin/ScrollerPlugin.java:63-74 | the writes of one parameter are exactly those parameters with that name |
| Extension.WritesAppend | datatables-core/src/main/java/com/github/dandelion/datatables/core/extension/plugin/ScrollerPlugin.java:63-74 | the writes of a name distribute over successive contributions |
| ServerSideFeature.LinesAreOnePerKey | datatables-core/src/main/java/com/github/dandelion/datatables/core/extension/feature/ServerSideFeature.java:80-84 | in whatever order HashMap walks the map, there are exactly as many lines as keys, and the set of lines is exactly one assignment per entry |
| ServerSideFeature.EnumerationSize | datatables-core/src/main/java/com/github/dandelion/datatables/core/extension/feature/ServerSideFeature.java:80 | a walk over a map visits as many entries as the map has |
| ServerSideFeature.BuildAjaxJs | datatables-core/src/main/java/com/github/dandelion/datatables/core/extension/feature/ServerSideFeature.java:74-85 | the StringBuilder loop produces the head `oTable_<id>_params.ajax = <params>();` followed by the lines in walk order |
| ServerSideFeature.Setup | datatables-core/src/main/java/com/github/dandelion/datatables/core/extension/feature/ServerSideFeature.java:68-92 | with extra parameters the JavaScript is appended and no parameter is added; without them DT_S_AJAX_SOURCE is set to the map and no JavaScript is appended; the INIT redraw callback is always added; no bundle is added |
| ScrollerPlugin.DomParameter | datatables-core/src/main/java/com/github/dandelion/datatables/core/extension/plugin/ScrollerPlugin.java:63-74 | a non-blank DOM gets `"S"` in APPEND mode; a blank one is set to the jQuery UI DOM when jQuery UI is true, `frtiS` otherwise |
| ScrollerPlugin.DomEndsWithScroller | datatables-core/src/main/java/com/github/dandelion/datatables/core/extension/plugin/ScrollerPlugin.java:63-74 | the DOM value written always ends in `S` |
| ScrollerPlugin.Setup | datatables-core/src/main/java/com/github/dandelion/datatables/core/extension/plugin/ScrollerPlugin.java:57-75 | the Scroller bundle is added, then the DOM parameter; nothing else |
| ScrollerPlugin.OneDomWrite | datatables-core/src/main/java/com/github/dandelion/datatables/core/extension/plugin/ScrollerPlugin.java:63-74 | setup writes the DOM parameter exactly once |
| SortingFeature.SortBundles | datatables-core/src/main/java/com/github/dandelion/datatables/core/extension/feature/SortingFeature.java:65-73 | every bundle added belongs to a column with a recognised sort type, every such column's bundle is added, and there are at most as many as columns |
| SortingFeature.SortBundlesAppend | datatables-core/src/main/java/com/github/dandelion/datatables/core/extension/feature/SortingFeature.java:65 | bundles follow column order: the columns of a concatenation add their bundles one part after the other |
| SortingFeature.UnrecognisedColumnsAddNothing | datatables-core/src/main/java/com/github/dandelion/datatables/core/extension/feature/SortingFeature.java:67-71 | blank or unknown sort types are skipped silently |
| SortingFeature.Setup | datatables-core/src/main/java/com/github/dandelion/datatables/core/extension/feature/SortingFeature.java:63-74 | the sort bundles are appended in column order; no parameter, callback or JavaScript is added |
| Bootstrap2Theme.ThemeBundles | datatables-core/src/main/java/com/github/dandelion/datatables/core/extension/theme/Bootstrap2Theme.java:60-64 | the Bootstrap 2 theme bundle comes first; the simple Bootstrap paging bundle is there exactly when paging is true |
| Bootstrap2Theme.ThemeParameters | datatables-core/src/main/java/com/github/dandelion/datatables/core/extension/theme/Bootstrap2Theme.java:62-70 | the paging type is written, as BOOTSTRAP_SIMPLE, exactly when paging is true and no paging type is set; the stripe classes are always set last to `[]` |
| Bootstrap2Theme.Setup | datatables-core/src/main/java/com/github/dandelion/datatables/core/extension/theme/Bootstrap2Theme.java:58-71 | the theme's bundles and parameters are appended; no callback or JavaScript |
| Extension.AjaxSourceMap | datatables-core/src/main/java/com/github/dandelion/datatables/core/extension/feature/ServerSideFeature.java:69-71 | the map holds exactly `url`, with the AJAX source, and the data-property key, with the feature's data value (`"data"` for ServerSideFeature, `""` for AjaxFeature) |
| AjaxFeature.AjaxParameters | datatables-core/src/test/java/com/github/dandelion/datatables/core/extension/feature/AjaxFeatureTest.java:24-39 | DT_DEFER_RENDER is written once, as true, and DT_S_AJAX_SOURCE once, as that map |
| AjaxFeature.Setup | datatables-core/src/test/java/com/github/dandelion/datatables/core/extension/feature/AjaxFeatureTest.java:24-39 | those parameters and the INIT redraw callback are added; no bundle is added |
| DatatableBundles.FromDeclaredName | datatables-core/src/main/java/com/github/dandelion/datatables/core/DatatableBundles.java:43-108 | a name found leads to a constant declared with exactly that name |
| DatatableBundles.FromDeclaredNameInverse | datatables-core/src/main/java/com/github/dandelion/datatables/core/DatatableBundles.java:43-108 | every constant's declared name leads back to that constant |
| DatatableBundles.DeclaredNamesDistinct | datatables-core/src/main/java/com/github/dandelion/datatables/core/DatatableBundles.java:43-108 | the bundle names are pairwise distinct |
| DatatableBundles.ClassifyDeclaredName | datatables-core/src/main/java/com/github/dandelion/datatables/core/DatatableBundles.java:43-108 | every constant is recognised from its declared name |
| DatatableBundles.DandelionNamesPrefix | datatables-core/src/main/java/com/github/dandelion/datatables/core/DatatableBundles.java:55-108 | every `DDL_DT*` name starts with `ddl-dt` |
| DatatableBundles.ThemeNamesPrefix | datatables-core/src/main/java/com/github/dandelion/datatables/core/DatatableBundles.java:59-86 | every theme name starts with `ddl-dt-theme-` |
| DatatableBundles.SortingNamesPrefix | datatables-core/src/main/java/com/github/dandelion/datatables/core/DatatableBundles.java:87-101 | every sorting name starts with `ddl-dt-sorting-` |
| DatatableBundles.PagingNamesPrefix | datatables-core/src/main/java/com/github/dandelion/datatables/core/DatatableBundles.java:102-108 | every paging name starts with `ddl-dt-paging-` |
| DatatableBundles.Renamed | datatables-core/src/main/java/com/github/dandelion/datatables/core/DatatableBundles.java:120-122 | renaming one constant gives it the new name and leaves every other constant's name unchanged |
| DatatableBundles.BundleNames.constructor | datatables-core/src/main/java/com/github/dandelion/datatables/core/DatatableBundles.java:43-108 | every constant starts with its declared name |
| DatatableBundles.BundleNames.GetBundleName | datatables-core/src/main/java/com/github/dandelion/datatables/core/DatatableBundles.java:116-118 | returns the constant's current name |
| DatatableBundles.BundleNames.SetBundleName | datatables-core/src/main/java/com/github/dandelion/datatables/core/DatatableBundles.java:120-122 | the constant gets the new name and every other constant keeps its name |
| ExportTag.ExportConf.constructor | datatables-jsp/src/main/java/com/github/dandelion/datatables/jsp/tag/ExportTag.java:134 | a new configuration has the format, and in the fields the tag writes the state the configuration map gives for that format (`initial`) |
| ExportTag.ExportConf.CopyFirst | datatables-jsp/src/main/java/com/github/dandelion/datatables/jsp/tag/ExportTag.java:140-170 | the URL mode, file name, extension, label, CSS class and style are written as CopyFirstAttributes says |
| ExportTag.ExportConf.CopyLast | datatables-jsp/src/main/java/com/github/dandelion/datatables/jsp/tag/ExportTag.java:207-227 | the MIME type, the two flags and the URL are written as CopyLastAttributes says |
| ExportTag.ExportConfiguration.GetOrCreate | datatables-jsp/src/main/java/com/github/dandelion/datatables/jsp/tag/ExportTag.java:128-136 | an existing configuration of the format is returned; otherwise a fresh one in the map's initial state for the format is created and put under the format; no other entry changes |
| ExportTag.UrlHead | datatables-jsp/src/main/java/com/github/dandelion/datatables/jsp/tag/ExportTag.java:140-160 | the URL starts with the export type, `f` for a blank URL and `c` otherwise |
| ExportTag.UrlTail | datatables-jsp/src/main/java/com/github/dandelion/datatables/jsp/tag/ExportTag.java:207-226 | the parameters after the orientation end with the four final ones |
| ExportTag.UrlParams | datatables-jsp/src/main/java/com/github/dandelion/datatables/jsp/tag/ExportTag.java:140-226 | the URL parameters start with the export type and end with id, format, in-progress `y` and asset-filter state `false`, in that order |
| ExportTag.OrientationInUrl | datatables-jsp/src/main/java/com/github/dandelion/datatables/jsp/tag/ExportTag.java:189-205 | the URL carries an orientation exactly when the attribute is not blank, and carries it as written |
| ExportTag.ExportUrlOf | datatables-jsp/src/main/java/com/github/dandelion/datatables/jsp/tag/ExportTag.java:138-150 | the URL is built on the current URI for a blank URL and on the trimmed URL otherwise |
| ExportTag.BlankAttributesKeepValues | datatables-jsp/src/main/java/com/github/dandelion/datatables/jsp/tag/ExportTag.java:152-227 | blank optional attributes and null flags overwrite nothing: only the URL mode and the URL are written |
| ExportTag.NameNormalises | datatables-jsp/src/main/java/com/github/dandelion/datatables/jsp/tag/ExportTag.java:176 | an enum name, in upper or lower case, survives upper-casing and trimming |
| ExportTag.MethodNamesAccepted | datatables-jsp/src/main/java/com/github/dandelion/datatables/jsp/tag/ExportTag.java:172-187 | `GET`/`POST`, in either case, are accepted as that method |
| ExportTag.OrientationNamesAccepted | datatables-jsp/src/main/java/com/github/dandelion/datatables/jsp/tag/ExportTag.java:189-205 | `PORTRAIT`/`LANDSCAPE`, in either case, are accepted as that orientation |
| ExportTag.RejectedMethod | datatables-jsp/src/main/java/com/github/dandelion/datatables/jsp/tag/ExportTag.java:172-187 | an unknown method gives the error quoting the raw value and the possible methods; only the attributes before it have been written, and the method is not set |
| ExportTag.RejectedOrientation | datatables-jsp/src/main/java/com/github/dandelion/datatables/jsp/tag/ExportTag.java:189-205 | an unknown orientation gives the error quoting the raw value and the possible orientations; neither the orientation nor the URL is set, while an accepted method is |
| ExportTag.CopyFirstTwice | datatables-jsp/src/main/java/com/github/dandelion/datatables/jsp/tag/ExportTag.java:140-170 | copying the first attributes twice is copying them once |
| ExportTag.CopyLastTwice | datatables-jsp/src/main/java/com/github/dandelion/datatables/jsp/tag/ExportTag.java:207-227 | copying the last attributes twice is copying them once |
| ExportTag.ConfiguredIdempotent | datatables-jsp/src/main/java/com/github/dandelion/datatables/jsp/tag/ExportTag.java:123-227 | a tag applied again to the configuration it produced changes nothing and raises the same error |
| ExportTag.Configure | datatables-jsp/src/main/java/com/github/dandelion/datatables/jsp/tag/ExportTag.java:138-227 | the field writes leave the configuration and the error exactly as Configured says |
| ExportTag.ConfigureFromOrientation | datatables-jsp/src/main/java/com/github/dandelion/datatables/jsp/tag/ExportTag.java:189-227 | the writes from the orientation on leave the configuration and the error as ConfiguredFromOrientation says |
| ExportTag.ConfigureFormat | datatables-jsp/src/main/java/com/github/dandelion/datatables/jsp/tag/ExportTag.java:125-227 | the configuration of the lower-cased, trimmed type is reused or created, then configured; every other format's configuration is untouched |
| ExportTag.DoEndTag | datatables-jsp/src/main/java/com/github/dandelion/datatables/jsp/tag/ExportTag.java:115-233 | nothing changes outside the first iteration; on it, ConfigureFormat's effect |
| TheadExportLinkUrl.AttributeFormat | datatables-thymeleaf/src/main/java/com/github/dandelion/datatables/thymeleaf/processor/attr/export/TheadExportLinkUrlAttrProcessor.java:70 | the format is the second `:`-separated piece, lower-cased and trimmed, and there is none exactly when the name has fewer than two pieces |
| TheadExportLinkUrl.FormatOfAttributeName | datatables-thymeleaf/src/main/java/com/github/dandelion/datatables/thymeleaf/processor/attr/export/TheadExportLinkUrlAttrProcessor.java:70 | in `dt:<format>:url` the format is the middle piece |
| TheadExportLinkUrl.MarkFormatCustom | datatables-thymeleaf/src/main/java/com/github/dandelion/datatables/thymeleaf/processor/attr/export/TheadExportLinkUrlAttrProcessor.java:72-83 | the format's configuration is reused (its other fields kept) or created, then marked custom with the attribute's value as its URL; other formats are untouched |
| TheadExportLinkUrl.DoProcessAttribute | datatables-thymeleaf/src/main/java/com/github/dandelion/datatables/thymeleaf/processor/attr/export/TheadExportLinkUrlAttrProcessor.java:67-86 | a name without a format fails and changes nothing; otherwise MarkFormatCustom's effect |
| HtmlTableBuilder.WithElement | datatables-core/src/main/java/com/github/dandelion/datatables/core/export/HtmlTableBuilder.java:206-213 | an element is appended to the column's list (created when null); the title is kept |
| HtmlTableBuilder.CellTextAppend | datatables-core/src/main/java/com/github/dandelion/datatables/core/export/HtmlTableBuilder.java:275-301 | a cell is a fold: the text of a concatenation of elements is the concatenation of their texts |
| HtmlTableBuilder.CellOfContents | datatables-core/src/main/java/com/github/dandelion/datatables/core/export/HtmlTableBuilder.java:292-294 | a cell made of content elements only is the concatenation of their contents |
| HtmlTableBuilder.ObjectType | datatables-core/src/main/java/com/github/dandelion/datatables/core/export/HtmlTableBuilder.java:247-253 | the simple class name of the first bean when there is one, `???` otherwise |
| HtmlTableBuilder.HeaderRow | datatables-core/src/main/java/com/github/dandelion/datatables/core/export/HtmlTableBuilder.java:255-266 | one header cell per column, in order |
| HtmlTableBuilder.BodyRow | datatables-core/src/main/java/com/github/dandelion/datatables/core/export/HtmlTableBuilder.java:272-304 | one cell per column, in order, each folded from that column's elements |
| HtmlTableBuilder.BodyRows | datatables-core/src/main/java/com/github/dandelion/datatables/core/export/HtmlTableBuilder.java:268-307 | null data gives no rows; otherwise one row per bean, in order |
| HtmlTableBuilder.ColumnsPerColumnCall | datatables-core/src/main/java/com/github/dandelion/datatables/core/export/HtmlTableBuilder.java:169-240 | the builder has exactly one header column per `column()` call |
| HtmlTableBuilder.ElementsSinceColumnCall | datatables-core/src/main/java/com/github/dandelion/datatables/core/export/HtmlTableBuilder.java:169-240 | the elements added after a `column()` call belong to that new last column, in call order |
| HtmlTableBuilder.Steps.constructor | datatables-core/src/main/java/com/github/dandelion/datatables/core/export/HtmlTableBuilder.java:157-165 | the builder has no column yet, and its export configuration is the request's, merged with the given one when there is one |
| HtmlTableBuilder.Steps.AddColumn | datatables-core/src/main/java/com/github/dandelion/datatables/core/export/HtmlTableBuilder.java:169-173 | one column without title or elements is appended; earlier columns are untouched |
| HtmlTableBuilder.Steps.Title | datatables-core/src/main/java/com/github/dandelion/datatables/core/export/HtmlTableBuilder.java:175-178 | only the last column's title changes |
| HtmlTableBuilder.Steps.AddElement | datatables-core/src/main/java/com/github/dandelion/datatables/core/export/HtmlTableBuilder.java:197-240 | only the last column changes: it gets the element appended |
| HtmlTableBuilder.Steps.FillWithProperty | datatables-core/src/main/java/com/github/dandelion/datatables/core/export/HtmlTableBuilder.java:197-204 | the last column gets a property element with empty content appended |
| HtmlTableBuilder.Steps.FillWith | datatables-core/src/main/java/com/github/dandelion/datatables/core/export/HtmlTableBuilder.java:206-213 | the last column gets a content element appended |
| HtmlTableBuilder.Steps.AndProperty | datatables-core/src/main/java/com/github/dandelion/datatables/core/export/HtmlTableBuilder.java:223-231 | the last column gets a property element with null content appended |
| HtmlTableBuilder.Steps.And | datatables-core/src/main/java/com/github/dandelion/datatables/core/export/HtmlTableBuilder.java:233-240 | the last column gets a content element appended |
| HtmlTableBuilder.Steps.BuildHeader | datatables-core/src/main/java/com/github/dandelion/datatables/core/export/HtmlTableBuilder.java:255-266 | the header loop builds exactly HeaderRow |
| HtmlTableBuilder.Steps.BuildRow | datatables-core/src/main/java/com/github/dandelion/datatables/core/export/HtmlTableBuilder.java:272-304 | a row fails exactly when some column has no element list; otherwise it is BodyRow |
| HtmlTableBuilder.BuildCell | datatables-core/src/main/java/com/github/dandelion/datatables/core/export/HtmlTableBuilder.java:274-302 | the `content +=` loop computes exactly the cell's fold |
| HtmlTableBuilder.Steps.Build | datatables-core/src/main/java/com/github/dandelion/datatables/core/export/HtmlTableBuilder.java:242-310 | build fails exactly when a bean meets a column without elements; otherwise the new table (`initial`) gets the id, the export configuration put under its format, the object type, one more header row and one body row per bean after its rows |
| DomUtils.PreOrder | datatables-thymeleaf/src/main/java/com/github/dandelion/datatables/thymeleaf/util/DomUtils.java:55-67 | the document order of a tree starts with its root |
| DomUtils.FirstMatch | datatables-thymeleaf/src/main/java/com/github/dandelion/datatables/thymeleaf/util/DomUtils.java:60-65 | none exactly when no node matches; otherwise a matching node of the sequence |
| DomUtils.Find | datatables-thymeleaf/src/main/java/com/github/dandelion/datatables/thymeleaf/util/DomUtils.java:55-67 | a node found matches the query and is the element or one of its descendants |
| DomUtils.FindIn | datatables-thymeleaf/src/main/java/com/github/dandelion/datatables/thymeleaf/util/DomUtils.java:60-65 | a node found matches and lies in one of the children's subtrees |
| DomUtils.FindElement | datatables-thymeleaf/src/main/java/com/github/dandelion/datatables/thymeleaf/util/DomUtils.java:55-67 | a result has the requested name and is descendant-or-self; a matching root is returned without looking at its children |
| DomUtils.FindElementWithAttribute | datatables-thymeleaf/src/main/java/com/github/dandelion/datatables/thymeleaf/util/DomUtils.java:85-98 | a result has the requested name and the attribute with the requested value, and is descendant-or-self; a matching root is returned first |
| DomUtils.FirstMatchAppend | datatables-thymeleaf/src/main/java/com/github/dandelion/datatables/thymeleaf/util/DomUtils.java:60-65 | in a scan of two parts, a match in the first part wins |
| DomUtils.FindIsFirstInPreOrder | datatables-thymeleaf/src/main/java/com/github/dandelion/datatables/thymeleaf/util/DomUtils.java:55-67 | the recursive search returns exactly the first match in document order (earlier subtrees before later siblings) |
| DomUtils.FindInIsFirstInPreOrder | datatables-thymeleaf/src/main/java/com/github/dandelion/datatables/thymeleaf/util/DomUtils.java:60-65 | the loop over the children returns the first match in their document order |
| DomUtils.FirstMatchIsFirst | datatables-thymeleaf/src/main/java/com/github/dandelion/datatables/thymeleaf/util/DomUtils.java:60-65 | the first match sits at an index before which no node matches |
| DomUtils.NoneIffNoMatch | datatables-thymeleaf/src/main/java/com/github/dandelion/datatables/thymeleaf/util/DomUtils.java:55-67 | the search finds nothing exactly when no node of the tree matches |
| DomUtils.FindIsFirstMatch | datatables-thymeleaf/src/main/java/com/github/dandelion/datatables/thymeleaf/util/DomUtils.java:85-98 | a node found is the first matching node in document order: no earlier node matches |

## Left out

- The implementations of `AjaxPipeliningProcessor`, `AjaxReloadFunctionProcessor` and `AjaxFeature` are not part of this model. Their behaviour is the one their unit tests pin down. Where the tests leave a choice open, the model makes these choices:
  - `"true"` is recognised case-insensitively, as `Boolean.parseBoolean` does;
  - a value without `#` registers the feature and adds no bundle;
  - a value with fewer than two `#` segments or a blank bundle segment is an error. The error's message text is the model's own: the test pins down only that a DandelionException is thrown;
  - a value with three or more `#` segments is accepted: the first segment gives the bundles, the second the function, and the others are dropped without an error (ExtraSegmentsDropped);
  - for AjaxFeature, the data-property key is a parameter rather than `DTConstants`' constant.
- AjaxProcessors.ProcessPipelining: the default pipe size's value is a parameter, because the default of the AJAX_PIPESIZE option is defined outside the modelled code.
- AbstractExtension is not part of this model. Its `addBundle`, `addParameter`, `addCallback` and `appendToAfterStartDocumentReady` are appends in call order. An added callback is kept as its type and code, not as a rendered `JsFunction`.
- `JsFunction` aliasing is not modelled. A callback's function is a value, so code appended through one reference (`getFunction()` then `appendCode`) is not seen through another. The modelled operations reach a function only through its callback.
- The rendering of `JsFunction`, `JsSnippet` and parameters to JavaScript text is left out. So is the storage of bundles in `AssetRequestContext`.
- The URL helpers are not part of this model:
  - `UrlUtils.getCurrentUri`, `addParameter` and `getProcessedUrl` (URL encoding, response rewriting) are not modelled;
  - an export URL is its base plus the list of its parameters;
  - the processed URL is an oracle.
- `StringUtils.escape` is an oracle. So are `PropertyUtils.getNestedProperty`, `MessageFormat`, `String.valueOf`, a bean's simple class name, `ProcessorUtils.getValueAfterProcessingBundles`, `SortType.findByName` and `Utils.parseElementAttribute`.
- `EnumUtils.printPossibleValuesOf` is a parameter, the text of the possible values.
- The enums that are not shown are assumed:
  - `Direction` is ASC and DESC;
  - `HttpMethod` is GET and POST;
  - `Orientation` is PORTRAIT and LANDSCAPE;
  - `CallbackType` is a catalogue parameter;
  - only the `PagingType` and `DTConstants` parameters the modelled code uses are present.
- HashMap iteration order in ServerSideFeature is unspecified. It is a parameter (any enumeration of the keys). The JavaScript is stated for that order, and as a set of lines independent of it.
- The processors that `ConfigUtils` calls are one oracle from the entry to its new value and staged entries.
  - Each processor is assumed to leave alone every entry but its own, and the options it does not stage.
  - The non-null requirement on entry values (`getValue().getClass()`) is not modelled: values are never null here.
- `ToUpper` and `ToLower` change ASCII letters only. Java's locale-sensitive, full-Unicode case mapping is not modelled. `Trim` removes the characters up to U+0020, as `String.trim` does.
- Common.IsBlank: whitespace is the ASCII blanks (space, U+0009..U+000D) and U+001C..U+001F. The other Unicode spaces that `Character.isWhitespace` accepts, such as U+2003, are not whitespace here. So a value made of them is not blank in this model, although `StringUtils.isBlank` calls it blank.
- SortDirectionProcessor.SortDirectionProcessorHandler.DoProcess: the tail of the error message is the parameter `valuesArrayText`. In the source it is the `SortDirection.values()` array concatenated to a string. That gives the array's default `toString`, an array of `ColumnDef.SortDirection` and an identity hash, so the message never lists the valid directions. Its exact text is not modelled.
- The JSP and servlet plumbing is left out: `findAncestorWithClass`, `pageContext`, the request and the response. The parent table's first-iteration flag is a parameter, and the request's table list is a field.
- The one- and two-argument overloads of `fillWithProperty` and `andProperty` are not modelled separately. They call the three-argument form with a null pattern and an empty default.
- `HtmlColumn` aliasing is not modelled. A header column is a value, so the title written into its configuration, and its content, are not shared with other objects.
- HtmlTableBuilder.Steps.Build: HtmlTable and TableConfiguration are not part of this model, so what `new HtmlTable(id, request, response)` holds is not known. It is the parameter `initial`; the contract holds for any such table, and its id and object type are overwritten.
- HtmlTableBuilder.Steps: the step methods require a column to exist. The `NoSuchElementException` of `getLast()` on an empty builder is not modelled.
- HtmlTableBuilder.BodyRows: a null bean inside the data list is not distinguished. The class name and property lookup of a bean are oracles.
- ExportTag.ExportConf.constructor: ExportConf is not part of this model, so the state a new `ExportConf(format)` starts in is not known. It is a parameter of the configuration map (`initial`), and the contracts hold for any such state.
- ExportConf's `mergeWith` and `getFormat` in HtmlTableBuilder are parameters. In the Thymeleaf processor, `custom` is a field of its own, distinct from `hasCustomUrl`.
- ExportTag: the `type` attribute is assumed non-null (the source calls `toLowerCase` on it unconditionally).
- DomUtils works on element nodes with a map of attributes. Attribute-name normalisation and attributes without a value are not modelled, and non-element children are dropped.
- `MessageResolverProcessor`, `ColumnFinalizerProcessor`, `AbstractColumnAttrProcessor` and `AbstractElProcessor` are left out. They are request and precedence plumbing, with no logic beyond map copies and calls to code that is not shown.
- Logging is left out throughout.
