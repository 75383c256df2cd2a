# hcs-lib in Dafny

A model of the core of `hcs-lib`, the library behind a compiler and linker
for layered JSON configuration. A *config set* is a directory with
`schemas/`, `models/` and `instances/` folders. Every resource file in it has
a dotted id, either `<set>.<category>.<name>` or
`<set>.<category>.<name>.<version>`. A model may reference schemas and other
models by id through `$ref` (one base) and `$refs` (several). Building a
model merges those bases into it and yields an *instance*. Building also
keeps numbered versions of every built file (`<name>/<name>_<k>.json`).

The model covers two paths through that logic.

- **The pipeline.** `HcsManager` runs one pipeline per model id of every
  discovered config set. The phases are ingest, conversion, validation,
  build, verification, problem resolution, versioning, output conversion and
  serialization. They communicate through a blackboard of
  `"<phase>:<type>:<id>"` keys and a shared error list. `PipelineManager`
  stops a run before a conversion, validation, build or verification phase
  when the error list is not empty. `HcsManager` then merges the errors of
  all failed runs without duplicates.
- **The legacy path.** `ResourceManager` loads the `.json` files of a config
  set. `validateAll` checks them. `buildAll` builds schemas, models and
  instances, compares each result with its latest version on disk, and
  writes new versions. With `failOnFileChanges` it refuses any change
  instead.

The model is organised as follows.

- Values:
  - JSON values are a datatype whose objects are insertion-ordered
    association lists (`JsonValues`, `OrderedMaps`).
  - Strings are `seq<char>`. The JavaScript string operations the code uses
    are written out with their exact edge cases (`Strings`).
- Oracles. The libraries the code calls but whose insides are not modelled
  are total functions supplied by the caller (`Host`):
  - `JSON.parse`;
  - `JSON.stringify(x, null, 2)`;
  - AJV;
  - git's "changed since the last commit" query.
- The environment:
  - The file system is a store of text files and directory listings
    (`FileStores`), reached through a `FileSystem` class whose `store` the
    writing methods update.
- Stateful objects are classes whose methods are proved against
  specification functions:
  - the pipeline context;
  - the config-set registry;
  - the ingest strategy;
  - the pipeline and HCS managers;
  - the resource registry.
- Loops are methods with invariants, specified by those functions:
  - the build and merge loops;
  - the versioning loop;
  - the deduplication loop.
- Pure code is functions and lemmas:
  - reference merging;
  - comparison;
  - the version table;
  - path and id arithmetic.

Because JSON values are immutable here, the deep copies that `merge` makes
before resolving (`MergeWithRefs.ts` lines 36 and 91) are implicit: no
operation can change its input entity or the pool.

Where the code and its documentation disagree, the model follows the code.
`isValidId` (`FileSystemIngestStrategy.ts` lines 148-151) is kept as
written. Because `&&` binds tighter than `||`, any three-segment string
qualifies, whatever its category. Only four-segment ids are restricted to
`schemas`, `models` and `instances`.

The modules `Strings`, `Sequences`, `OrderedMaps`, `JsonValues`, `Wrappers`
and `FileStores` model JavaScript built-ins and shared vocabulary. Their
lemmas are helpers and have no rows below. Neither do the helper lemmas
inside the other modules.

## Model

| member | source | states |
|---|---|---|
| NodeFs.AgreesWithConfigSet | hcs-lib/src/fs/nodeFs.ts:7-25 | the adapter's `buildAbsPathForId` throws exactly for the ids the config set's own path builder answers `""` for, and otherwise gives the same path (unversioned `root/category/name.json`, versioned `root/category/name/name_v.json`) |
| NodeFs.RejectsBadIds | hcs-lib/src/fs/nodeFs.ts:9-23 | fewer than three segments and more than four throw, each with its own message naming the id |
| FileStores.IsDirectory | hcs-lib/src/fs/nodeFs.ts:44-47 | `stat` throws exactly when nothing is at the path; otherwise the answer is whether it is a directory |
| FileStores.ReadFile | hcs-lib/src/fs/nodeFs.ts:27-29 | reading succeeds exactly for an existing file that is not a directory, and yields that file's content |
| FileStores.ReadDirectory | hcs-lib/src/fs/nodeFs.ts:49-51 | listing succeeds exactly for an existing directory |
| FileStores.WriteFile | hcs-lib/src/fs/nodeFs.ts:31-33 | writing succeeds exactly when the parent directory exists and the path is not a directory; then the file holds the new content, the set of directories is unchanged and reading it back gives the content |
| FileStores.WriteFileOthers | hcs-lib/src/fs/nodeFs.ts:31-33 | a write leaves every other file readable exactly as before |
| FileStores.MakeDirectories | hcs-lib/src/fs/nodeFs.ts:53-55 | recursive `mkdir` leaves the directory in place, keeps every file and every existing directory, and changes nothing when the directory exists |
| FileStores.WriteAfterMakeDirectories | hcs-lib/src/fs/nodeFs.ts:53-55 | a file directly inside a directory just made can be written |
| FileStores.FileSystem.Write | hcs-lib/src/fs/nodeFs.ts:31-33 | the live disk's store becomes the written store, or stays as it was when the write throws |
| FileStores.FileSystem.CreateDirectory | hcs-lib/src/fs/nodeFs.ts:53-55 | the live disk's store becomes the store after the recursive `mkdir`, or stays as it was when it throws |
| ConfigSets.BuildPathEmpty | hcs-lib/src/core/ConfigSet.ts:161-170 | `buildAbsFilePathById` answers `""` exactly for ids that have neither three nor four dot-separated segments |
| ConfigSets.BuildPathOfId | hcs-lib/src/core/ConfigSet.ts:163-164 | an unversioned id `<set>.<folder>.<name>` maps to `<root>/<folder>/<name>.json` |
| ConfigSets.BuildPathOfVersionedId | hcs-lib/src/core/ConfigSet.ts:165-166 | a versioned id `<set>.<folder>.<name>.<v>` maps to `<root>/<folder>/<name>/<name>_<v>.json` |
| ConfigSets.IdMatchHere | hcs-lib/src/core/ConfigSet.ts:62 | a match of the `$id` pattern at one position captures a non-empty text without a double quote |
| ConfigSets.FirstIdMatch | hcs-lib/src/core/ConfigSet.ts:62-63 | the leftmost match of the `$id` pattern captures a non-empty text without a double quote |
| ConfigSets.IdMatchOfHeader | hcs-lib/src/core/ConfigSet.ts:62-63 | a file whose text starts with `"$id": "<v>"` is indexed under `v` |
| ConfigSets.IdMatchAfterKey | hcs-lib/src/core/ConfigSet.ts:62 | the pattern matches `"$id": "` followed by a quoted value, whitespace allowed around the colon, and captures that value |
| ConfigSets.RegisterFilesPaths | hcs-lib/src/core/ConfigSet.ts:55-67 | every path the loop registers is `<directory>/<f>` for a listed entry `f` |
| ConfigSets.RegisterFilesKeeps | hcs-lib/src/core/ConfigSet.ts:55-67 | registering further files never loses an id already registered |
| ConfigSets.RegisterFilesComplete | hcs-lib/src/core/ConfigSet.ts:55-67 | when every listed entry is a readable plain file, each is registered under the id its text declares, or else its file name |
| ConfigSets.ResourcesOfPlainFiles | hcs-lib/src/core/ConfigSet.ts:49-74 | loading a directory of readable plain files registers every one of them, and only at paths inside that directory |
| ConfigSets.LoadResourcesFromDir | hcs-lib/src/core/ConfigSet.ts:49-74 | the loop over the listing builds the index the recursive definition gives; a listing or read that throws ends the loop with what was registered so far |
| ConfigSets.WithId | hcs-lib/src/core/ConfigSet.ts:119 | `{ ...template, $id: id }` is an object whose `$id` is the new id |
| ConfigSets.BaseTemplateWithId | hcs-lib/src/core/ConfigSet.ts:6-9 | the default template with the id spread in is `{ $id: id, $version: 1 }`, `$id` first |
| ConfigSets.ConfigSet.constructor | hcs-lib/src/core/ConfigSet.ts:18-22 | a new set has the given path, the last path segment as its name, and three empty indexes |
| ConfigSets.ConfigSet.LoadResources | hcs-lib/src/core/ConfigSet.ts:40-44 | the three indexes become the ones loaded from `schemas/`, `models/` and `instances/` |
| ConfigSets.ConfigSet.CreateResourceFile | hcs-lib/src/core/ConfigSet.ts:102-134 | an existing file is refused with `File already exists`; a failed write leaves the disk and the indexes unchanged; otherwise the pretty-printed `{...template, $id}` is written and the id joins its folder's index |
| ConfigSets.Register | hcs-lib/src/core/ConfigSet.ts:125 | registering changes one index only, never the set's name or root |
| ConfigSets.LookupAfterRegister | hcs-lib/src/core/ConfigSet.ts:149-159 | after creation, `getAbsFilePathById` of the new id finds the file just written, and every other id keeps its path |
| ConfigSets.LoadConfigSet | hcs-lib/src/core/ConfigSet.ts:27-35 | loading fails exactly when nothing is at the path, with `Failed to read directory <path>`; otherwise the new set holds the indexes loaded from its folders |
| ConfigSetManagers.FirstIndex | hcs-lib/src/core/ConfigSetManager.ts:49 | `findIndex` by name: the first position holding the name, or past the end exactly when the name is absent |
| ConfigSetManagers.FindRoots | hcs-lib/src/core/ConfigSetManager.ts:163-205 | the search only grows the visited set; every root it reports is a directory holding the three folders that was not visited before the call; no root is reported twice |
| ConfigSetManagers.SearchEntries | hcs-lib/src/core/ConfigSetManager.ts:188-204 | the loop over a directory's entries keeps the roots found before it as a prefix, never throws out of its `try`, and reports only fresh config roots, each once |
| ConfigSetManagers.SearchStep | hcs-lib/src/core/ConfigSetManager.ts:193-198 | one entry's search either adds its roots and visited paths and goes on, or, when it throws, ends the loop with what was found before |
| ConfigSetManagers.RootIsNotEntered | hcs-lib/src/core/ConfigSetManager.ts:178-186 | a directory holding `models`, `schemas` and `instances` is reported without looking inside it |
| ConfigSetManagers.DiscoveredRoots | hcs-lib/src/core/ConfigSetManager.ts:20-25 | every root found below the search paths is a config root |
| ConfigSetManagers.ConfigSetManager.constructor | hcs-lib/src/core/ConfigSetManager.ts:8-10 | a new manager holds no config set |
| ConfigSetManagers.ConfigSetManager.SetConfigSet | hcs-lib/src/core/ConfigSetManager.ts:48-57 | the first set of the same name is replaced in place, otherwise the set is appended |
| ConfigSetManagers.SetNameKeepsUnique | hcs-lib/src/core/ConfigSetManager.ts:48-57 | setting a set keeps the names unique, and looking the name up afterwards finds the slot it went into |
| ConfigSetManagers.ConfigSetManager.Clear | hcs-lib/src/core/ConfigSetManager.ts:62-65 | the registry becomes empty |
| ConfigSetManagers.ConfigSetManager.GetConfigSetByName | hcs-lib/src/core/ConfigSetManager.ts:145-158 | a set is found exactly when one has that name, and it is the first such set |
| ConfigSetManagers.ConfigSetManager.GetConfigSetByResourceId | hcs-lib/src/core/ConfigSetManager.ts:99-116 | a set is found exactly when one is named by the id's first segment, and it is the first such set |
| ConfigSetManagers.ConfigSetManager.ResolveAbsPathFromId | hcs-lib/src/core/ConfigSetManager.ts:118-135 | with no set named by the id's first segment the answer is `""`; otherwise it is the path the first such set registered for the id in the index of the id's category, or `""` when that index has none |
| ConfigSetManagers.ConfigSetManager.BuildAbsFilePathById | hcs-lib/src/core/ConfigSetManager.ts:138-143 | the path the id's set would give its file, or `""`, computed from the registry's names and roots alone |
| ConfigSetManagers.ConfigSetManager.FindConfigRootsRecursive | hcs-lib/src/core/ConfigSetManager.ts:163-205 | the recursive search returns what the definition of the search gives, threading the visited set |
| ConfigSetManagers.ConfigSetManager.SearchSubfolders | hcs-lib/src/core/ConfigSetManager.ts:188-204 | the entry loop with its `try` returns what the definition of the loop gives |
| ConfigSetManagers.ConfigSetManager.SearchPaths | hcs-lib/src/core/ConfigSetManager.ts:20-25 | the loop over the search paths gives the roots of each path in turn, each searched with a fresh visited set, and stops at the first exception |
| ConfigSetManagers.LoadAll | hcs-lib/src/core/ConfigSetManager.ts:28-30 | one freshly loaded set per root, in order of the roots |
| ConfigSetManagers.ConfigSetManager.DiscoverConfigSets | hcs-lib/src/core/ConfigSetManager.ts:16-35 | an exception from the search leaves the registry empty and is passed on; otherwise the registry holds exactly one freshly loaded set per distinct root found, in the order found |
| PipelineContexts.SplitKeyOfPhaseKey | hcs-lib/src/core/ContextUtils.ts:11 | splitting a blackboard key on `:` gives back its phase, type and id when none of them holds a colon |
| PipelineContexts.PhaseKeyInjective | hcs-lib/src/core/ContextUtils.ts:11 | distinct colon-free triples have distinct keys |
| PipelineContexts.ColonsCollide | hcs-lib/src/core/ContextUtils.ts:11 | a witness: with a colon inside a part, two different triples share one key |
| PipelineContexts.TripleKeyParts | hcs-lib/src/core/ContextUtils.ts:11 | a key of exactly three colon-separated parts is the key of the triple it splits into |
| PipelineContexts.PhaseKeyPrefix | hcs-lib/src/core/ContextUtils.ts:11 | every key starts with its phase and a colon |
| PipelineContexts.GetPhaseData | hcs-lib/src/core/ContextUtils.ts:17-25 | a value is found exactly when the triple's key is on the blackboard |
| PipelineContexts.WithPhaseData | hcs-lib/src/core/ContextUtils.ts:4-15 | after `setPhaseData` the triple reads back as the value, every other key reads as before, and the key keeps its place when present or is appended when new |
| PipelineContexts.SetOverwrites | hcs-lib/src/core/ContextUtils.ts:4-15 | a second `set` of the same triple overwrites the first in place |
| PipelineContexts.SetLeavesOtherTriples | hcs-lib/src/core/ContextUtils.ts:4-25 | setting one colon-free triple leaves every other colon-free triple reading as before |
| PipelineContexts.PipelineContext.constructor | hcs-lib/src/core/HcsManager.ts:106-112 | the context of one run starts with the model id, its config set, an empty blackboard and no errors |
| PipelineContexts.PipelineContext.SetPhaseData | hcs-lib/src/core/ContextUtils.ts:4-15 | the blackboard becomes the data after the `set`; the errors are untouched |
| PipelineContexts.PipelineContext.AddErrors | hcs-lib/src/phases/validation/DefaultValidationStrategy.ts:25-26 | the errors are appended in order; the blackboard is untouched |
| PipelineContexts.GetEntitiesFromContext | hcs-lib/src/phases/build/DefaultBuildStrategy.ts:104-118 | the loop over the blackboard collects the entries of one phase and type, keyed by resource id, as the recursive definition gives |
| PipelineContexts.EntitiesDistinct | hcs-lib/src/phases/build/DefaultBuildStrategy.ts:107-115 | the collected entities are keyed by distinct resource ids |
| PipelineContexts.EntitiesFromPut | hcs-lib/src/phases/build/DefaultBuildStrategy.ts:110-115 | writing a key of another phase does not change what is collected |
| PipelineContexts.PhaseEntriesMeaning | hcs-lib/src/phases/versioning/DefaultVersioningStrategy.ts:214-226 | the ids collected for a phase are exactly the resource ids of that phase's entries, and each value is the value of one of that id's entries |
| PipelineContexts.GetPhaseEntries | hcs-lib/src/phases/versioning/DefaultVersioningStrategy.ts:214-226 | the loop over the blackboard collects every entry of one phase, of any type, as the recursive definition gives |
| PipelineContexts.PhaseEntriesDistinct | hcs-lib/src/phases/versioning/DefaultVersioningStrategy.ts:214-226 | the collected entries are keyed by distinct resource ids |
| PipelineContexts.PhaseEntriesFromMeaning | hcs-lib/src/phases/versioning/DefaultVersioningStrategy.ts:214-226 | an id is collected exactly when it was already there or some entry of the phase has it, and its value is the earlier one or that of such an entry |
| Conversion.FirstPositionMatch | hcs-lib/src/phases/conversion/DefaultConversionStrategy.ts:94 | the leftmost match of `position (\d+)` at or after a start, or none when no position matches |
| Conversion.ExtractErrorPositionFromMessage | hcs-lib/src/phases/conversion/DefaultConversionStrategy.ts:93-96 | a message without a match of `position (\d+)` gives 0 |
| Conversion.PositionOfMessage | hcs-lib/src/phases/conversion/DefaultConversionStrategy.ts:93-96 | a message reading `... position N ...`, with no earlier match, gives back exactly N |
| Conversion.LineStartOfJoin | hcs-lib/src/phases/conversion/DefaultConversionStrategy.ts:71-84 | over all the lines of a text the running count reaches the text's length plus one |
| Conversion.LocateFrom | hcs-lib/src/phases/conversion/DefaultConversionStrategy.ts:76-87 | every reported position highlights exactly one character (`columnEnd == columnStart + 1`) |
| Conversion.LocateOffset | hcs-lib/src/phases/conversion/DefaultConversionStrategy.ts:76-84 | a position at column `c >= 1` of line `i` (0-based), or anywhere on the first line, is reported as line `i + 1`, column `c` |
| Conversion.LocateLineStart | hcs-lib/src/phases/conversion/DefaultConversionStrategy.ts:76-84 | the first character of a line after the first is reported on the previous line, one column past its end |
| Conversion.LocateFallback | hcs-lib/src/phases/conversion/DefaultConversionStrategy.ts:86-87 | a position beyond the text's length plus one falls back to line 1, columns 0 to 1 |
| Conversion.ExtractErrorPositionDetails | hcs-lib/src/phases/conversion/DefaultConversionStrategy.ts:70-88 | the loop with its running counter reports the first line whose count reaches the position, as the line-scan definition gives |
| Conversion.ParseError | hcs-lib/src/phases/conversion/DefaultConversionStrategy.ts:39-46 | a parse failure is an error against the resource id whose message starts with `JSON parsing error: ` |
| Conversion.ExecuteConversion | hcs-lib/src/phases/conversion/DefaultConversionStrategy.ts:10-64 | the loop leaves the blackboard and errors as the conversion of the entries present at the start gives |
| Conversion.ConvertEntryEffect | hcs-lib/src/phases/conversion/DefaultConversionStrategy.ts:18-55 | one entry writes at most a `conversion` key and appends at most one parse error |
| Conversion.ConvertEntriesKeepsOthers | hcs-lib/src/phases/conversion/DefaultConversionStrategy.ts:15-57 | every key outside the `conversion` phase reads as before, and the errors only grow, by parse errors |
| Conversion.ConvertEntryOwn | hcs-lib/src/phases/conversion/DefaultConversionStrategy.ts:18-31 | an ingest entry decides its own conversion entry: the parsed value when its text is truthy and parses, otherwise the entry as it was |
| Conversion.ConvertEntryOther | hcs-lib/src/phases/conversion/DefaultConversionStrategy.ts:15-31 | an entry of another triple leaves this triple's conversion entry as it was |
| Conversion.ConvertEntriesStores | hcs-lib/src/phases/conversion/DefaultConversionStrategy.ts:15-57 | over distinct keys, the conversion entry of a triple is decided by its ingest entry alone |
| Conversion.ConvertedStores | hcs-lib/src/phases/conversion/DefaultConversionStrategy.ts:10-64 | on a well-formed blackboard an ingest entry with truthy text that parses is stored under `conversion` as the parsed value; otherwise that conversion entry reads as before |
| FindElement.KeyLineHit | hcs-lib/src/utils/findElementInJSON.ts:14-21 | in key mode a line hits exactly when it is white space, the quoted key, white space and a colon; the span covers the quoted key, two characters longer than the key |
| FindElement.KeyIndex | hcs-lib/src/utils/findElementInJSON.ts:19 | on a key line, `indexOf('"<key>"')` is the line's indentation |
| FindElement.StringLiteralEnd | hcs-lib/src/utils/findElementInJSON.ts:25 | the string-literal alternative of the value pattern ends just past a closing quote |
| FindElement.TokenAt | hcs-lib/src/utils/findElementInJSON.ts:25 | a value token (string literal, digits, `true`, `false`, `null`) found at a position occurs there |
| FindElement.ValueTokenFrom | hcs-lib/src/utils/findElementInJSON.ts:24-27 | the token of the leftmost match of the value pattern occurs in the line |
| FindElement.ValueLineHit | hcs-lib/src/utils/findElementInJSON.ts:27-34 | in value mode a line hits exactly when its first value token, with surrounding quotes removed, is the searched text; the span is non-empty |
| FindElement.LineHits | hcs-lib/src/utils/findElementInJSON.ts:11-37 | the hit of every line, in line order |
| FindElement.FirstHitNone | hcs-lib/src/utils/findElementInJSON.ts:39 | with no hit from a line on, the result is `{0, 0, 0}` |
| FindElement.FirstHitFound | hcs-lib/src/utils/findElementInJSON.ts:11-37 | with a hit at some line, the result is the first line with a hit, at or before it |
| FindElement.FindInLinesMeaning | hcs-lib/src/utils/findElementInJSON.ts:1-40 | the scan over the printed document's lines gives `{0, 0, 0}` when no line hits, and otherwise the first line (0-based) that hits, with that line's non-empty span |
| FindElement.KeyHitSpan | hcs-lib/src/utils/findElementInJSON.ts:14-21 | when some line holds the key, the hit starts at the first such line's indentation and spans the quoted key |
| FindElement.ValueSpanStartsAtFirstOccurrence | hcs-lib/src/utils/findElementInJSON.ts:32 | a witness on one line: the span starts at the first occurrence of the token text in the line, which can lie inside the key before the token itself |
| Ingest.ThreePartsAreIds | hcs-lib/src/phases/ingest/FileSystemIngestStrategy.ts:149-152 | every three-part string passes `isValidId`, whatever its second part |
| Ingest.FourPartsAreIdsIff | hcs-lib/src/phases/ingest/FileSystemIngestStrategy.ts:149-152 | a four-part string passes exactly when its second part is `schemas`, `models` or `instances` |
| Ingest.VersionStringIsId | hcs-lib/src/phases/ingest/FileSystemIngestStrategy.ts:149-152 | a witness: a version string such as `"1.0.0"` is taken for a reference |
| Ingest.RefsInValue | hcs-lib/src/phases/ingest/FileSystemIngestStrategy.ts:124-136 | one property value adds exactly its id-like string leaves to the set, keeping it duplicate-free |
| Ingest.RefsInItems | hcs-lib/src/phases/ingest/FileSystemIngestStrategy.ts:124-136 | the items of an array add exactly their id-like string leaves, keeping the set duplicate-free |
| Ingest.RefsInFields | hcs-lib/src/phases/ingest/FileSystemIngestStrategy.ts:124-136 | the property values of an object (never its property names) add exactly their id-like string leaves, keeping the set duplicate-free |
| Ingest.ExtractReferences | hcs-lib/src/phases/ingest/FileSystemIngestStrategy.ts:119-144 | the references are duplicate-free, and a string is among them exactly when the text parses to an object or array holding it as a leaf value and it passes `isValidId` |
| Ingest.Store | hcs-lib/src/phases/ingest/FileSystemIngestStrategy.ts:101 | storing a loaded file keeps every earlier key and error and puts the `ingest` key on the blackboard |
| Ingest.RefErrorOutcome | hcs-lib/src/phases/ingest/FileSystemIngestStrategy.ts:154-182 | exactly one error is pushed when the source `$id` is a string, none otherwise; the error says `Unable to resolve ref: <id>`; the call completes exactly when that `$id` is a string with a second part |
| Ingest.RefsInUniverse | hcs-lib/src/phases/ingest/FileSystemIngestStrategy.ts:56 | every reference extracted from a file on disk is among the references of all files on disk, which bounds the recursion |
| Ingest.Unresolved | hcs-lib/src/phases/ingest/FileSystemIngestStrategy.ts:87-91 | an unresolved reference loads nothing and only adds errors |
| Ingest.Caught | hcs-lib/src/phases/ingest/FileSystemIngestStrategy.ts:107-110 | an exception caught by the loop loads nothing and only adds errors |
| Ingest.ResolveDoc | hcs-lib/src/phases/ingest/FileSystemIngestStrategy.ts:55-112 | walking a document only grows the blackboard, loads only ids some file on disk mentions, and stores every id it loads |
| Ingest.ResolveRefs | hcs-lib/src/phases/ingest/FileSystemIngestStrategy.ts:75-111 | the loop over the references keeps the same promises, each turn in order, an exception leaving the loop |
| Ingest.ResolveRef | hcs-lib/src/phases/ingest/FileSystemIngestStrategy.ts:76-110 | one turn keeps the same promises |
| Ingest.LoadRef | hcs-lib/src/phases/ingest/FileSystemIngestStrategy.ts:100-110 | a read reference is stored, marked loaded and walked, with the same promises |
| Ingest.UnknownModelThrows | hcs-lib/src/phases/ingest/FileSystemIngestStrategy.ts:24-28 | a model id its config set does not index throws before anything is written |
| Ingest.EmptyModelThrows | hcs-lib/src/phases/ingest/FileSystemIngestStrategy.ts:30-38 | a model file that is empty or holds `""` throws before anything is written |
| Ingest.IngestedStoresModel | hcs-lib/src/phases/ingest/FileSystemIngestStrategy.ts:20-53 | a completed ingest has stored the model's text at `ingest:models:<modelId>`, stored every id it loaded, loaded only ids some file mentions, kept every earlier key and only appended errors |
| Ingest.UnparsableDocument | hcs-lib/src/phases/ingest/FileSystemIngestStrategy.ts:58-73 | text that does not parse records exactly one error at 0:0 against its own file and neither loads nor stores anything |
| Ingest.LoadedRefSkipped | hcs-lib/src/phases/ingest/FileSystemIngestStrategy.ts:76-78 | an id already loaded is neither read, stored nor walked again |
| Ingest.UnresolvedRefReported | hcs-lib/src/phases/ingest/FileSystemIngestStrategy.ts:86-91 | a reference no config set places is reported once against the referencing file at the reference's position, and the loop goes on, when that file's `$id` has a category part |
| Ingest.UnresolvedWithoutId | hcs-lib/src/phases/ingest/FileSystemIngestStrategy.ts:154-162 | when the referencing document has no string `$id`, an unresolved reference escapes as an exception and no error is recorded |
| Ingest.UnresolvedWithBareId | hcs-lib/src/phases/ingest/FileSystemIngestStrategy.ts:89-110 | with a one-part `$id`, an unresolved reference is reported twice, once in the `try` and once in the `catch`, and then escapes |
| Ingest.IngestStrategy.constructor | hcs-lib/src/phases/ingest/FileSystemIngestStrategy.ts:13-14 | a new strategy has loaded nothing |
| Ingest.IngestStrategy.Execute | hcs-lib/src/phases/ingest/FileSystemIngestStrategy.ts:20-53 | the blackboard, the loaded set and the exception are the ones the ingest definition gives |
| Ingest.IngestStrategy.RecursivelyResolveReferences | hcs-lib/src/phases/ingest/FileSystemIngestStrategy.ts:55-112 | the recursive walk leaves what the walk definition gives |
| Ingest.IngestStrategy.ResolveReference | hcs-lib/src/phases/ingest/FileSystemIngestStrategy.ts:76-110 | one turn of the loop leaves what the definition of the turn gives |
| Ingest.IngestStrategy.LoadReference | hcs-lib/src/phases/ingest/FileSystemIngestStrategy.ts:100-110 | the store, the mark and the recursion leave what their definition gives |
| Ingest.IngestStrategy.HandleRefError | hcs-lib/src/phases/ingest/FileSystemIngestStrategy.ts:154-182 | the error pushed and the exception are the ones `RefErrorOutcome` gives |
| MergeWithRefs.ResolveReferenceEntity | hcs-lib/src/phases/build/MergeWithRefs.ts:73-92 | succeeds exactly for a string id not yet visited whose pool entry is truthy, handing back that entry and the visited set grown by the id; a visited id is circular, an id missing from the pool unresolved |
| MergeWithRefs.ResolveRefs | hcs-lib/src/phases/build/MergeWithRefs.ts:46-71 | resolution only ever grows the visited set |
| MergeWithRefs.ResolveFields | hcs-lib/src/phases/build/MergeWithRefs.ts:64-68 | the key loop keeps the object's keys and only grows the visited set |
| MergeWithRefs.ResolveItems | hcs-lib/src/phases/build/MergeWithRefs.ts:64-68 | the array loop keeps the array's length and only grows the visited set |
| MergeWithRefs.HandleSingleRef | hcs-lib/src/phases/build/MergeWithRefs.ts:94-114 | following one `$ref` only grows the visited set |
| MergeWithRefs.MultiLoop | hcs-lib/src/phases/build/MergeWithRefs.ts:127-141 | the `$refs` loop only grows the visited set |
| MergeWithRefs.HandleMultipleRefs | hcs-lib/src/phases/build/MergeWithRefs.ts:116-150 | following a `$refs` array only grows the visited set |
| MergeWithRefs.FilterSchemaRefs | hcs-lib/src/phases/build/MergeWithRefs.ts:158 | the filter keeps only entries of the array that contain `.schemas.` |
| MergeWithRefs.CleanNode | hcs-lib/src/phases/build/MergeWithRefs.ts:153-166 | the node edit leaves values each smaller than the node, so the recursion into them terminates |
| MergeWithRefs.CleanFields | hcs-lib/src/phases/build/MergeWithRefs.ts:168-172 | the key loop cleans each value in place, keeping every key at its position |
| MergeWithRefs.CleanItems | hcs-lib/src/phases/build/MergeWithRefs.ts:168-172 | the loop cleans each array element in place, keeping the length |
| MergeWithRefs.Merge | hcs-lib/src/phases/build/MergeWithRefs.ts:18-33 | an entity whose `$id` is not a string of three or four segments is rejected; with a valid id, a pool holding a malformed key is rejected with `Invalid $id of availableEntites format for entity: ` followed by the first malformed key in the pool's key order, every key before it being well formed; both checks come before any resolution |
| MergeWithRefs.FirstInvalidId | hcs-lib/src/phases/build/MergeWithRefs.ts:27-33 | the `forEach` over the pool's keys stops at the first id that does not split into three or four segments: every id before that position is well formed, and the position is the length when all are |
| MergeWithRefs.PoolKeysValidMeaning | hcs-lib/src/phases/build/MergeWithRefs.ts:27-33 | checking the listed keys in order is checking every key of the map, and it passes exactly when no first malformed key is found |
| MergeEngine.DeepMergeInPlace | hcs-lib/src/phases/build/MergeWithRefs.ts:178-205 | the in-place loop over the source's keys computes `DeepMerge` |
| MergeEngine.MergeValueInPlace | hcs-lib/src/phases/build/MergeWithRefs.ts:188-199 | the value one key leaves in the target is `MergeValue` of its old and new value |
| MergeEngine.CleanRefsInPlace | hcs-lib/src/phases/build/MergeWithRefs.ts:152-175 | the in-place edit and key loop compute `CleanRefs` |
| MergeEngine.CleanFieldsInPlace | hcs-lib/src/phases/build/MergeWithRefs.ts:168-172 | the loop over a node's keys computes `CleanFields` |
| MergeEngine.CleanItemsInPlace | hcs-lib/src/phases/build/MergeWithRefs.ts:168-172 | the loop over an array computes `CleanItems` |
| MergeEngine.ResolveReferences | hcs-lib/src/phases/build/MergeWithRefs.ts:46-71 | the recursive walk computes `ResolveRefs`, visited set included |
| MergeEngine.ResolveFieldsInPlace | hcs-lib/src/phases/build/MergeWithRefs.ts:64-68 | the key loop computes `ResolveFields` |
| MergeEngine.ResolveItemsInPlace | hcs-lib/src/phases/build/MergeWithRefs.ts:64-68 | the array loop computes `ResolveItems` |
| MergeEngine.ResolveSingleRef | hcs-lib/src/phases/build/MergeWithRefs.ts:94-114 | computes `HandleSingleRef` |
| MergeEngine.ResolveMultipleRefs | hcs-lib/src/phases/build/MergeWithRefs.ts:116-150 | the `$refs` loop computes `HandleMultipleRefs` |
| MergeEngine.MergeEntity | hcs-lib/src/phases/build/MergeWithRefs.ts:18-44 | the `$id` checks, then the loop over the pool's keys that throws at the first malformed one, then resolution and cleaning, give exactly `Merge`, error messages included |
| MergeProperties.MergeFieldsGet | hcs-lib/src/phases/build/MergeWithRefs.ts:183-200 | after the key loop a source key holds the merge of its target and source values; every other key keeps its target value |
| MergeProperties.MergeFieldsKeepsTargetKeys | hcs-lib/src/phases/build/MergeWithRefs.ts:183-200 | no key of the target is lost |
| MergeProperties.DeepMergeObjects | hcs-lib/src/phases/build/MergeWithRefs.ts:178-205 | per key: an array replaces, `{}` resets, a non-empty object merges into the target value (or into `{}`), a primitive overwrites, a missing key keeps its target value |
| MergeProperties.DeepMergeKeySet | hcs-lib/src/phases/build/MergeWithRefs.ts:178-205 | the merged keys are exactly the union of both objects' keys |
| MergeProperties.SchemaRefKept | hcs-lib/src/phases/build/MergeWithRefs.ts:103-106 | building a model, a node whose `$ref` names a schema is kept as it is and nothing is visited |
| MergeProperties.SingleRefOwnKeysWin | hcs-lib/src/phases/build/MergeWithRefs.ts:56-110 | a `$ref` is followed before any `$refs`, and every non-object value of the node wins over the referenced entity's |
| MergeProperties.SchemaRefs | hcs-lib/src/phases/build/MergeWithRefs.ts:133-134 | the retained refs are entries of the array that name schemas |
| MergeProperties.MultiLoopRetainsSchemaRefs | hcs-lib/src/phases/build/MergeWithRefs.ts:127-141 | building a model, the loop sets aside exactly the schema refs, in order |
| MergeProperties.MultiLoopRetainsNothingForSchemas | hcs-lib/src/phases/build/MergeWithRefs.ts:127-141 | building a schema, nothing is set aside |
| MergeProperties.MultiLoopAccIsObject | hcs-lib/src/phases/build/MergeWithRefs.ts:122-141 | the accumulator starts as `{}` and stays an object |
| MergeProperties.MultipleRefsResult | hcs-lib/src/phases/build/MergeWithRefs.ts:116-150 | the result is an object in which the node's own non-object values win; building a model with schema refs, `$refs` becomes exactly those refs in order, otherwise it stays the node's own array |
| MergeProperties.MergeResultCleaned | hcs-lib/src/phases/build/MergeWithRefs.ts:18-44 | `merge` succeeds only for an entity with a well-formed `$id` and a pool whose keys are all well formed, and what it returns is cleaned at every depth: no node but a model keeps `$ref` or `$refs`, and a model keeps a `$refs` array of schema refs only |
| MergeProperties.ResolveKeepsObject | hcs-lib/src/phases/build/MergeWithRefs.ts:46-150 | over a pool of objects, resolving an object gives an object, whichever of `$ref`, `$refs` or the key loop applies |
| MergeProperties.MergeKeepsObjects | hcs-lib/src/phases/build/MergeWithRefs.ts:18-44 | over a pool of objects, a successful `merge` of an object is an object |
| MergeProperties.DiamondIsCircular | hcs-lib/src/phases/build/MergeWithRefs.ts:127-131 | two entities that both reference a third, reached from one `$refs` array, make the merge report a circular reference although the graph has no cycle, since the visited set is shared across siblings |
| MergeProperties.TwoCycleIsCircular | hcs-lib/src/phases/build/MergeWithRefs.ts:79-82 | two entities that reference each other are reported as a circular reference |
| MergeProperties.CleanKeepsKind | hcs-lib/src/phases/build/MergeWithRefs.ts:152-175 | cleaning keeps objects objects and arrays arrays of the same length, and primitives unchanged |
| MergeProperties.CleanKeepsIncludes | hcs-lib/src/phases/build/MergeWithRefs.ts:152-175 | `includes` on a cleaned value gives the same answer as on the original |
| MergeProperties.ModelNodeKept | hcs-lib/src/phases/build/MergeWithRefs.ts:158 | cleaning the values of a node does not change whether its `$id` marks it as a model |
| MergeProperties.CleanRefsCleans | hcs-lib/src/phases/build/MergeWithRefs.ts:152-175 | after `cleanRefs` every node of the tree is clean: non-models carry no `$ref`/`$refs`, models carry a `$refs` array of schema refs |
| MergeProperties.CleanedNode | hcs-lib/src/phases/build/MergeWithRefs.ts:153-172 | the top node of a cleaned object is clean |
| MergeProperties.CleanNodeShape | hcs-lib/src/phases/build/MergeWithRefs.ts:153-166 | a model node gets a `$refs` array of schema refs (`[]` when it had none) and keeps `$id`; any other node loses `$ref` and `$refs` |
| MergeProperties.ModelKeepsStringRef | hcs-lib/src/phases/build/MergeWithRefs.ts:160-162 | at a model node a string `$ref` survives; only an object `$ref` whose `$id` names a model is dropped |
| MergeProperties.ModelRefsFiltered | hcs-lib/src/phases/build/MergeWithRefs.ts:158 | a model node with string `$refs` keeps exactly its schema entries, in order |
| MergeProperties.ModelNodeEdit | hcs-lib/src/phases/build/MergeWithRefs.ts:158 | the node edit sets a model's `$refs` to the filtered array |
| MergeProperties.StringsClean | hcs-lib/src/phases/build/MergeWithRefs.ts:152-175 | an array of strings is its own cleaned value |
| MergeProperties.FilterIsSchemaRefs | hcs-lib/src/phases/build/MergeWithRefs.ts:158 | on string entries the filter never fails and equals the schema-ref selection |
| MergeProperties.CycleResolution | hcs-lib/src/phases/build/MergeWithRefs.ts:79-82 | a schema that reaches the two-schema cycle `a` → `b` → `a` is reported as circular at `a` |
| Validators.ExtractLineNumberOfIndex | hcs-lib/src/validators/baseJsonValidator.ts:42-45 | an instance path ending in an array index gives that index |
| Validators.ParseIntOfDigits | hcs-lib/src/core/validators/BaseJsonValidator.ts:18 | `parseInt` of a string of digits is its decimal value |
| Validators.ParseIntOfName | hcs-lib/src/core/validators/BaseJsonValidator.ts:18 | `parseInt` of a name is `NaN` |
| Validators.ExtractLineNumberOfName | hcs-lib/src/validators/baseJsonValidator.ts:42-45 | an instance path ending in a property name gives `0` |
| Validators.FormatValidationError | hcs-lib/src/core/validators/BaseJsonValidator.ts:24-40 | the error record carries the file, line and message given, `startChar` as its column and `endChar` as its end column |
| Validators.ExpectedIdOfPath | hcs-lib/src/core/validators/BaseJsonValidator.ts:116-121 | a file `<dir>/<set>/<category>/<name>.<ext>` is expected to carry the id `<set>.<category>.<name>` |
| Validators.IdCheck | hcs-lib/src/core/validators/BaseJsonValidator.ts:123-148 | at most one `$id` error, none exactly when `$id` is the expected id; each error names the file |
| Validators.VersionCheck | hcs-lib/src/core/validators/BaseJsonValidator.ts:150-163 | one `$version` error exactly when `$version` is not a number |
| Validators.RefErrorsMeaning | hcs-lib/src/core/validators/BaseJsonValidator.ts:189-214 | at most one error per `$inheritsFrom` value, none exactly when every value names a converted schema; each is a reference error against the file |
| Validators.RefErrorsAppend | hcs-lib/src/core/validators/BaseJsonValidator.ts:189-218 | the reference errors of two runs of values are the errors of each, in order |
| Validators.CheckReferences | hcs-lib/src/core/validators/BaseJsonValidator.ts:186-219 | the recursive `checkReferences` walk collects exactly the reference errors of the `$inheritsFrom` values it meets, in traversal order |
| Validators.InheritsValueNotSearched | hcs-lib/src/core/validators/BaseJsonValidator.ts:190-216 | the value under an `$inheritsFrom` key is checked as a whole and not searched further |
| Validators.BaseChecks | hcs-lib/src/core/validators/BaseJsonValidator.ts:109-174 | an undefined path makes the checks throw; a path and a non-string document never do |
| Validators.BaseChecksShape | hcs-lib/src/core/validators/BaseJsonValidator.ts:114-173 | the errors come in three runs: at most one `$id` error, at most one `$version` error, then one reference error per unknown `$inheritsFrom` value |
| Validators.BaseValidations | hcs-lib/src/core/validators/BaseJsonValidator.ts:109-174 | the method pushing onto one list computes `BaseChecks` |
| Validators.ValidateSchema | hcs-lib/src/core/validators/SchemaValidator.ts:20-62 | a schema with no truthy conversion entry gives exactly one not-found error against its id; otherwise the base checks against its indexed path, which throw when none is indexed |
| Validators.ValidateModel | hcs-lib/src/core/validators/ModelValidator.ts:20-77 | a model with no truthy conversion entry gives one not-found error; a model the config set does not index gives one other error and skips the base checks; otherwise the base checks |
| Validators.ValidatorsReadConversion | hcs-lib/src/core/validators/BaseJsonValidator.ts:192-197 | both validators read only `conversion:` entries of the blackboard, so other phases' entries cannot change their verdict |
| Validation.ValidateInContext | hcs-lib/src/phases/validation/DefaultValidationStrategy.ts:34-62 | the loop over the blackboard promotes entries as it goes and returns the collected errors, as `ValidateEntries` does; the context's error list is untouched |
| Validation.ExecuteValidation | hcs-lib/src/phases/validation/DefaultValidationStrategy.ts:14-29 | the phase leaves the context in the state `Validated` describes: schemas first, then models, their errors appended in that order |
| Validation.ValidateEntryCases | hcs-lib/src/phases/validation/DefaultValidationStrategy.ts:40-58 | one entry either leaves the data alone and appends errors, or promotes its converted entity and leaves the errors alone |
| Validation.ValidateEntryEffect | hcs-lib/src/phases/validation/DefaultValidationStrategy.ts:40-58 | one entry changes only `validation` keys, keeps every key, and only appends errors |
| Validation.ValidateEntriesEffect | hcs-lib/src/phases/validation/DefaultValidationStrategy.ts:40-58 | a whole pass changes only `validation` keys, keeps every key, and only appends errors |
| Validation.ValidatedKeepsOthers | hcs-lib/src/phases/validation/DefaultValidationStrategy.ts:14-29 | the phase leaves every key outside `validation` as it was, keeps all keys, and only appends to the error list |
| Validation.ValidateEntryOwn | hcs-lib/src/phases/validation/DefaultValidationStrategy.ts:43-54 | the entry for a resource writes its `validation` entry exactly when its validator reports nothing |
| Validation.ValidateEntryOther | hcs-lib/src/phases/validation/DefaultValidationStrategy.ts:40-58 | an entry for another key leaves that resource's `validation` entry alone |
| Validation.ValidateEntriesWithout | hcs-lib/src/phases/validation/DefaultValidationStrategy.ts:40-58 | a pass with no conversion entry for a resource leaves its `validation` entry alone |
| Validation.ValidateEntriesStores | hcs-lib/src/phases/validation/DefaultValidationStrategy.ts:40-58 | a pass over entries holding a resource's conversion key promotes it exactly when its validator reports no error and does not throw |
| Validation.ValidatedSchemas | hcs-lib/src/phases/validation/DefaultValidationStrategy.ts:34-62 | a converted schema becomes validated, with its converted value, exactly when its validator reports no error and does not throw; otherwise its `validation` entry reads as before |
| Validation.ValidatedModels | hcs-lib/src/phases/validation/DefaultValidationStrategy.ts:67-93 | the same for models; since the validator reads only conversion entries, its verdict is the one on the blackboard the phase started from |
| Validation.PassLeavesOtherCategory | hcs-lib/src/phases/validation/DefaultValidationStrategy.ts:43-52 | the schema pass writes no model `validation` key, and the model pass no schema key |
| Validation.PromotionEffect | hcs-lib/src/phases/validation/DefaultValidationStrategy.ts:43-52 | storing a validated entry changes only validation data, keeps every key and keeps the blackboard keyed by phase, type and id |
| Build.StripFields | hcs-lib/src/phases/build/DefaultBuildStrategy.ts:177-181 | the key loop of `clean` replaces every value by its cleaned value, key by key in place |
| Build.StripItems | hcs-lib/src/phases/build/DefaultBuildStrategy.ts:177-181 | the same loop over an array replaces every element by its cleaned value |
| Build.StripFieldsKeys | hcs-lib/src/phases/build/DefaultBuildStrategy.ts:177-181 | the loop keeps every key at its position |
| Build.StripRefsRefFree | hcs-lib/src/phases/build/DefaultBuildStrategy.ts:160-187 | after `removeRefs` no `$ref` or `$refs` is left at any depth |
| Build.StripRefsOfRefFree | hcs-lib/src/phases/build/DefaultBuildStrategy.ts:163-184 | a value with no references is left as it is |
| Build.StripRefsIdempotent | hcs-lib/src/phases/build/DefaultBuildStrategy.ts:160-187 | `removeRefs` is idempotent |
| Build.GetStripFields | hcs-lib/src/phases/build/DefaultBuildStrategy.ts:177-181 | every key of a cleaned node reads the cleaned value of the original |
| Build.StripRefsKeepsOthers | hcs-lib/src/phases/build/DefaultBuildStrategy.ts:163-184 | every key other than `$ref` and `$refs` keeps its cleaned value |
| Build.RemoveRefs | hcs-lib/src/phases/build/DefaultBuildStrategy.ts:160-187 | the in-place deletion and key loop compute `StripRefs` |
| Build.RemoveRefsFields | hcs-lib/src/phases/build/DefaultBuildStrategy.ts:177-181 | the key loop computes `StripFields` |
| Build.RemoveRefsItems | hcs-lib/src/phases/build/DefaultBuildStrategy.ts:177-181 | the loop over an array computes `StripItems` |
| Build.PoolOf | hcs-lib/src/phases/build/DefaultBuildStrategy.ts:59 | the entity table holds exactly the listed ids, each with its listed value |
| Build.MergeErrorRecord | hcs-lib/src/phases/build/DefaultBuildStrategy.ts:124-155 | the error names the entity's file and the `[BUILD]` message, has a 1-based line, and sits at line 1, column 0 for a circular reference |
| Build.HandleMergeRefError | hcs-lib/src/phases/build/DefaultBuildStrategy.ts:124-155 | appends exactly that record to the context's errors and leaves the data alone |
| Build.BuildSchemasInContext | hcs-lib/src/phases/build/DefaultBuildStrategy.ts:33-51 | the schema loop leaves the context as `SchemasBuilt` describes |
| Build.ExecBuildModels | hcs-lib/src/phases/build/DefaultBuildStrategy.ts:78-99 | building one model leaves the context as `BuildModel` describes |
| Build.BuildModelsInContext | hcs-lib/src/phases/build/DefaultBuildStrategy.ts:56-76 | the model loop, then the target, leave the context as `ModelsBuilt` describes |
| Build.BuildOtherModels | hcs-lib/src/phases/build/DefaultBuildStrategy.ts:61-71 | the loop builds every model but the target and hands back the target's entry, or `{}` when there is none |
| Build.ExecuteBuild | hcs-lib/src/phases/build/DefaultBuildStrategy.ts:18-28 | schemas first, then models: the context ends as `Built` describes |
| Build.InstanceShape | hcs-lib/src/phases/build/DefaultBuildStrategy.ts:89-92 | the instance carries the instance id and no reference, and every other property is the merged one with references removed |
| Build.BuildMessagePrefix | hcs-lib/src/phases/build/DefaultBuildStrategy.ts:152 | every build error message starts with `[BUILD] ` |
| Build.BuiltKeepsOthers | hcs-lib/src/phases/build/DefaultBuildStrategy.ts:18-28 | the build phase writes only `build` keys and only appends errors after the ones already there |
| Build.EntitiesAfterWrite | hcs-lib/src/phases/build/DefaultBuildStrategy.ts:104-119 | writing a `build` key does not change the validated entities the phase reads |
| Build.EntitiesAfterSchemas | hcs-lib/src/phases/build/DefaultBuildStrategy.ts:104-119 | the schema pass does not change the validated entities |
| Build.ModelsSeeValidated | hcs-lib/src/phases/build/DefaultBuildStrategy.ts:56-59 | the models pass reads the same validated models and schemas the schemas pass saw |
| Build.BuildKeysDiffer | hcs-lib/src/phases/build/DefaultBuildStrategy.ts:43-92 | build keys of different types or different ids never collide |
| Build.SchemasFromKeep | hcs-lib/src/phases/build/DefaultBuildStrategy.ts:36-50 | the schema loop leaves the build entry of an id it does not visit as it was |
| Build.SchemasFromStore | hcs-lib/src/phases/build/DefaultBuildStrategy.ts:36-50 | each schema's merge result is stored under `build:schemas` when it succeeds, and its error is reported when it fails |
| Build.BuildModelKeeps | hcs-lib/src/phases/build/DefaultBuildStrategy.ts:78-99 | building one model writes no `build:schemas` entry and no other model's `build:models` entry |
| Build.ModelsFromKeep | hcs-lib/src/phases/build/DefaultBuildStrategy.ts:62-71 | the model loop leaves the entries of models it does not visit as they were |
| Build.ModelsFromStore | hcs-lib/src/phases/build/DefaultBuildStrategy.ts:62-71 | each model other than the target: its unmerged original is stored when its merge succeeds, and its error is reported when it fails |
| Build.SchemaBuilt | hcs-lib/src/phases/build/DefaultBuildStrategy.ts:18-51 | each validated schema's outcome survives to the end of the phase |
| Build.ModelBuilt | hcs-lib/src/phases/build/DefaultBuildStrategy.ts:18-76 | each validated model other than the target keeps its outcome to the end of the phase |
| Build.TargetBuilt | hcs-lib/src/phases/build/DefaultBuildStrategy.ts:61-92 | the target is built last from its validated entry or `{}`: on success its original and its instance are stored, on failure its error is the last one |
| Build.TargetInstanceShaped | hcs-lib/src/phases/build/DefaultBuildStrategy.ts:61-92 | when the validated entities are objects, a target that merges is an object, and the stored instance has the instance id, no reference at any depth, and every other property of the merged model with its references removed |
| Build.MissingTargetReported | hcs-lib/src/phases/build/DefaultBuildStrategy.ts:61-75 | a target with no validated entry is built from `{}`, which fails, so the phase ends with an unresolved-reference error for it |
| Verification.ExtractRefsFacts | hcs-lib/src/phases/verification/DefaultVerificationStrategy.ts:89-115 | `extractRefs` lists each reference once, and exactly the references found anywhere in the model |
| Verification.OwnRefsCollected | hcs-lib/src/phases/verification/DefaultVerificationStrategy.ts:95-103 | a node's own truthy `$ref` and every element of its `$refs` array are collected |
| Verification.FieldRefsCollected | hcs-lib/src/phases/verification/DefaultVerificationStrategy.ts:106-110 | the references of any property value are collected |
| Verification.ItemRefsCollected | hcs-lib/src/phases/verification/DefaultVerificationStrategy.ts:106-110 | the references of any array element are collected |
| Verification.NestedRefsCollected | hcs-lib/src/phases/verification/DefaultVerificationStrategy.ts:92-111 | references at any depth below the model are collected |
| Verification.RefFreeHasNoRefs | hcs-lib/src/phases/verification/DefaultVerificationStrategy.ts:92-111 | a value with no `$ref` or `$refs` anywhere, such as a built instance, refers to nothing |
| Verification.ExtractRefsOf | hcs-lib/src/phases/verification/DefaultVerificationStrategy.ts:89-115 | the method filling a set computes `ExtractRefs` |
| Verification.Traverse | hcs-lib/src/phases/verification/DefaultVerificationStrategy.ts:92-111 | the recursive `traverse` adds the value's references to the set filled so far, each once |
| Verification.AddOwnRefs | hcs-lib/src/phases/verification/DefaultVerificationStrategy.ts:95-103 | the node's own references are added to the set, each once |
| Verification.TraverseFields | hcs-lib/src/phases/verification/DefaultVerificationStrategy.ts:106-110 | the key loop adds the references of all property values |
| Verification.TraverseItems | hcs-lib/src/phases/verification/DefaultVerificationStrategy.ts:106-110 | the same loop over an array adds the references of all elements |
| Verification.LookUpSchemasMeaning | hcs-lib/src/phases/verification/DefaultVerificationStrategy.ts:62-78 | the lookup throws exactly when some reference is not a string, and otherwise yields the `build:schemas` entry of each schema reference, in order |
| Verification.MissingSchemaLookedUp | hcs-lib/src/phases/verification/DefaultVerificationStrategy.ts:64-76 | a schema reference that was not built is pushed as a missing schema |
| Verification.FieldNameOfPointer | hcs-lib/src/phases/verification/DefaultVerificationStrategy.ts:178-179 | an AJV pointer `/.../name` names its last segment |
| Verification.RequiredFieldMessage | hcs-lib/src/phases/verification/DefaultVerificationStrategy.ts:185-189 | AJV's "must have required property 'x'" at the root becomes "Missing required field 'x'" |
| Verification.FieldMessage | hcs-lib/src/phases/verification/DefaultVerificationStrategy.ts:190-195 | every other error names the schema and the field and carries AJV's message |
| Verification.FormatVerificationError | hcs-lib/src/phases/verification/DefaultVerificationStrategy.ts:170-206 | the record names the resource's file, the message and `error`; it needs a string resource `$id`, and cannot fail for a string `$id` on a non-string resource |
| Verification.ReportErrorsExact | hcs-lib/src/phases/verification/DefaultVerificationStrategy.ts:155-160 | without an exception one error is appended per AJV error, in AJV's order, and the data is untouched |
| Verification.MissingSchemaSkipped | hcs-lib/src/phases/verification/DefaultVerificationStrategy.ts:129-133 | a missing or falsy schema is skipped and changes nothing |
| Verification.ValidateResourceAgrees | hcs-lib/src/phases/verification/DefaultVerificationStrategy.ts:124-163 | the as-written and the intended readings agree when every schema was found |
| Verification.CheckSchemasAppends | hcs-lib/src/phases/verification/DefaultVerificationStrategy.ts:129-162 | checking against the schemas only appends errors |
| Verification.ReportErrorsNoThrow | hcs-lib/src/phases/verification/DefaultVerificationStrategy.ts:155-160 | formatting cannot throw for a resource whose `$id` is a string and which is not a string itself |
| Verification.OneSchemaErrors | hcs-lib/src/phases/verification/DefaultVerificationStrategy.ts:124-163 | against one found schema, a resource with a string `$id` gets exactly one error per AJV error and nothing throws |
| Verification.ValidateResourceAppends | hcs-lib/src/phases/verification/DefaultVerificationStrategy.ts:124-163 | validating a resource as written only appends errors |
| Verification.VerifyModelAppends | hcs-lib/src/phases/verification/DefaultVerificationStrategy.ts:52-84 | verifying a model only appends errors |
| Verification.VerifyAllAppends | hcs-lib/src/phases/verification/DefaultVerificationStrategy.ts:32-35 | the model loop only appends errors |
| Verification.VerifiedOnlyAppends | hcs-lib/src/phases/verification/DefaultVerificationStrategy.ts:17-50 | verification stores nothing and never removes an error |
| Verification.NoBuiltModels | hcs-lib/src/phases/verification/DefaultVerificationStrategy.ts:25-30 | with no built model the phase does nothing |
| Verification.ModelAndInstanceChecked | hcs-lib/src/phases/verification/DefaultVerificationStrategy.ts:52-84 | a model whose one schema reference was built gets one error per AJV error on the model and one per AJV error on its instance, in that order |
| Verification.ExecuteVerification | hcs-lib/src/phases/verification/DefaultVerificationStrategy.ts:17-50 | the phase leaves the context and the thrown error as `Verified` describes, `validateResource` taken as written: a model that references a schema that was not built throws at the log line |
| Verification.VerifyModelInContext | hcs-lib/src/phases/verification/DefaultVerificationStrategy.ts:52-84 | verifying one model leaves the context as `VerifyModel` describes: the model, then its instance, checked by `validateResource` as written, so a schema that was not built throws |
| Verification.LookUpSchemasOf | hcs-lib/src/phases/verification/DefaultVerificationStrategy.ts:62-78 | the loop over the references computes `LookUpSchemas` |
| Verification.ValidateResourceInContext | hcs-lib/src/phases/verification/DefaultVerificationStrategy.ts:124-163 | validating one resource leaves the context as `ValidateResourceAsWritten` describes: a `null` resource or a `null` among the schemas throws before AJV runs, otherwise the schema loop runs |
| Verification.PushErrors | hcs-lib/src/phases/verification/DefaultVerificationStrategy.ts:155-160 | the push loop leaves the context as `ReportErrors` describes |
| Verification.MissingSchemaThrows | hcs-lib/src/phases/verification/DefaultVerificationStrategy.ts:124-133 | a reference to a schema that was not built makes the as-written code throw when it reads the schema's `$id`, while the evidently intended skip leaves the board unchanged |
| VersionRules.LastIndexOfChar | hcs-lib/src/phases/versioning/DefaultVersioningStrategy.ts:279 | the last occurrence of the character, or `-1`: nothing after it is that character |
| VersionRules.VersionOfFileName | hcs-lib/src/phases/versioning/DefaultVersioningStrategy.ts:279-280 | the file name written for version `k`, `<stem>_k.json`, reads back as version `k` |
| VersionRules.VersionsMembers | hcs-lib/src/phases/versioning/DefaultVersioningStrategy.ts:277-282 | the version numbers are exactly those of the names that match `<stem>_<digits>.json` |
| VersionRules.MaxOfMeaning | hcs-lib/src/phases/versioning/DefaultVersioningStrategy.ts:284 | the maximum bounds every number and is one of them when positive |
| VersionRules.LatestInMeaning | hcs-lib/src/phases/versioning/DefaultVersioningStrategy.ts:277-284 | no name carries a higher version; a positive result is some name's version; with no matching name the result is `0` |
| VersionRules.NextScanSeesVersion | hcs-lib/src/phases/versioning/DefaultVersioningStrategy.ts:277-284 | after adding the file of a version at least the current latest, the next scan reports that version |
| VersionRules.LatestVersionOnDisk | hcs-lib/src/phases/versioning/DefaultVersioningStrategy.ts:269-285 | `0` when nothing exists at the path; otherwise the latest version in the folder's listing |
| VersionRules.CompareFieldsMeaning | hcs-lib/src/phases/versioning/DefaultVersioningStrategy.ts:259 | every key of the first object is in the second with an equal value |
| VersionRules.CompareItemsMeaning | hcs-lib/src/phases/versioning/DefaultVersioningStrategy.ts:243-246 | two arrays of equal length are equal exactly when they are equal element by element |
| VersionRules.CompareReflexive | hcs-lib/src/phases/versioning/DefaultVersioningStrategy.ts:231-264 | every value equals itself |
| VersionRules.CompareSymmetric | hcs-lib/src/phases/versioning/DefaultVersioningStrategy.ts:231-264 | the comparison does not depend on the order of its arguments |
| VersionRules.ReorderedObjectsEqual | hcs-lib/src/phases/versioning/DefaultVersioningStrategy.ts:249-260 | key order does not matter: an object equals any reordering of its entries |
| VersionRules.DifferentShapesDiffer | hcs-lib/src/phases/versioning/DefaultVersioningStrategy.ts:238-245 | values of different kinds, or arrays of different lengths, differ |
| VersionRules.ArrayMatchesIndexObject | hcs-lib/src/phases/versioning/DefaultVersioningStrategy.ts:249-260 | an array equals the object keyed by its indices, since both reach the key comparison; `[]` equals `{}` |
| VersionRules.Decide | hcs-lib/src/phases/versioning/DefaultVersioningStrategy.ts:138-195 | every staged version is at least 1 |
| VersionRules.DecideBounds | hcs-lib/src/phases/versioning/DefaultVersioningStrategy.ts:138-195 | the version written is never below the latest, exceeds it by at most one, exceeds it only when the latest file is committed, and nothing is staged exactly when a version exists and the content equals it |
| VersionRules.DecideReads | hcs-lib/src/phases/versioning/DefaultVersioningStrategy.ts:85-124 | the comparison and the git state matter only with a version on disk, and the git state only when the content differs |
| VersioningPhase.Versioned | hcs-lib/src/phases/versioning/DefaultVersioningStrategy.ts:137-163 | the versioned copy has `$id` suffixed with `.k`, `$version` `k`, and every other property as built |
| VersioningPhase.Unversioned | hcs-lib/src/phases/versioning/DefaultVersioningStrategy.ts:152-154 | the unversioned copy has the original `$id`, `$version` `k`, every other property as built |
| VersioningPhase.StagedEntries | hcs-lib/src/phases/versioning/DefaultVersioningStrategy.ts:150-154 | staging version `k` writes exactly two `versioning` entries, the versioned copy under the suffixed id and the unversioned copy under the original id; every other key reads as before |
| VersioningPhase.StageKeepsOthers | hcs-lib/src/phases/versioning/DefaultVersioningStrategy.ts:150-188 | staging writes `versioning` keys only, so built entries are untouched |
| VersioningPhase.ReadDisk | hcs-lib/src/phases/versioning/DefaultVersioningStrategy.ts:83-124 | the latest version is the one on disk, and a file reported changed in git is the latest version's file, consulted only when the content differs |
| VersioningPhase.PlanMeaning | hcs-lib/src/phases/versioning/DefaultVersioningStrategy.ts:83-195 | without a version file the entity gets version 1; with latest version N whose file parses, equal content stages nothing, otherwise N is overwritten when changed in git and N+1 added when not |
| VersioningPhase.GitOnlyOnChange | hcs-lib/src/phases/versioning/DefaultVersioningStrategy.ts:109-123 | the git state can change the plan only for an entity with a version on disk whose content differs |
| VersioningPhase.VersionAllKeepsOthers | hcs-lib/src/phases/versioning/DefaultVersioningStrategy.ts:32-196 | the entity loop adds no error and changes no entry outside `versioning` |
| VersioningPhase.VersioningKeepsOthers | hcs-lib/src/phases/versioning/DefaultVersioningStrategy.ts:16-25 | the phase adds no error and changes no entry outside `versioning`, so every built object stays as it was |
| VersioningPhase.ExecuteVersioning | hcs-lib/src/phases/versioning/DefaultVersioningStrategy.ts:16-25 | the phase leaves the context, the disk and the thrown error as `VersioningDone` describes: the built entities in order, each planned from the disk the previous ones left, the first exception ending the loop |
| VersioningPhase.ProcessEntity | hcs-lib/src/phases/versioning/DefaultVersioningStrategy.ts:32-196 | one iteration leaves the context, the disk and the thrown error as `VersionEntity` describes: a failed read throws and changes nothing; an entity to stage with no version on disk first gets its version folder from `createDirectory`, whose refusal is thrown before anything is staged |
| VersioningPhase.ReadDiskState | hcs-lib/src/phases/versioning/DefaultVersioningStrategy.ts:83-124 | the reads compute `ReadDisk`: a failed listing, read or parse is thrown; with no version on disk nothing else is read; git is asked only when the content differs from the latest version |
| VersioningPhase.PlanEntity | hcs-lib/src/phases/versioning/DefaultVersioningStrategy.ts:126-195 | the branch taken is `Decide` of what was read, and `versionedFileExists` holds exactly when a version is on disk |
| VersioningPhase.StageInContext | hcs-lib/src/phases/versioning/DefaultVersioningStrategy.ts:143-192 | the two `setPhaseData` calls of each staging branch leave the data as `StageVersion` describes and the errors alone |
| VersioningPhase.VersionEntityDisk | hcs-lib/src/phases/versioning/DefaultVersioningStrategy.ts:138-141 | one iteration writes no file and can only add folders; the disk changes only for an entity staged with no version on disk, and then its version folder exists |
| VersioningPhase.VersionAllDisk | hcs-lib/src/phases/versioning/DefaultVersioningStrategy.ts:32-196 | the entity loop writes no file and can only add folders |
| VersioningPhase.VersioningKeepsFiles | hcs-lib/src/phases/versioning/DefaultVersioningStrategy.ts:16-25 | the phase writes no file: every file reads as before, and directories are only added |
| OutputConversion.StoreOutputsKeepsOthers | hcs-lib/src/phases/output-conversion/DefaultOutputConversionStrategy.ts:19-31 | the loop writes `output` keys only |
| OutputConversion.OutputKeepsOthers | hcs-lib/src/phases/output-conversion/DefaultOutputConversionStrategy.ts:9-34 | the phase writes `output` keys only and adds no error |
| OutputConversion.StoreOutputsStores | hcs-lib/src/phases/output-conversion/DefaultOutputConversionStrategy.ts:19-31 | each entry is stored under `output:<type>:<id>` as its printed text, the type being the id's second segment |
| OutputConversion.StoreOutputsUntouched | hcs-lib/src/phases/output-conversion/DefaultOutputConversionStrategy.ts:19-31 | the `output` entry of an id not in the list is left alone |
| OutputConversion.OutputStoresVersioned | hcs-lib/src/phases/output-conversion/DefaultOutputConversionStrategy.ts:12-31 | every staged `versioning` entry, by resource id, is stored once more as its printed text, the last staged value of an id winning |
| OutputConversion.ExecuteOutputConversion | hcs-lib/src/phases/output-conversion/DefaultOutputConversionStrategy.ts:9-34 | the phase leaves the context as `OutputConverted` describes |
| Serialization.WriteOneStores | hcs-lib/src/phases/serialization/DefaultSerializationStrategy.ts:27-43 | a written entry reads back from its path as its text, and only text is written |
| Serialization.BadIdStops | hcs-lib/src/phases/serialization/DefaultSerializationStrategy.ts:30 | an id with fewer than three or more than four segments stops the phase |
| Serialization.WriteAllKeepsOthers | hcs-lib/src/phases/serialization/DefaultSerializationStrategy.ts:27-44 | files the phase does not write keep their contents |
| Serialization.ExecuteSerialization | hcs-lib/src/phases/serialization/DefaultSerializationStrategy.ts:17-47 | the phase leaves the disk, and the thrown error, as `Serialized` describes |
| Pipelines.RunIsPrefix | hcs-lib/src/core/PipelineManager.ts:31-42 | whatever the phases do, a run is the composition of the first `ran` registered phases, in order: it adds and removes no error of its own, runs no phase twice and reorders none |
| Pipelines.HaltsOnlyAtGate | hcs-lib/src/core/PipelineManager.ts:33-38 | a run that stops without an exception before the end stopped at a gated phase with errors on the board |
| Pipelines.ThrowComesFromLastPhase | hcs-lib/src/core/PipelineManager.ts:33-40 | an exception leaves the run at the phase that raised it |
| Pipelines.ComposeNoThrow | hcs-lib/src/core/PipelineManager.ts:33-40 | after a phase that does not throw, the run goes on from that phase's state |
| Pipelines.UngatedRunAll | hcs-lib/src/core/PipelineManager.ts:29-40 | phases outside the gating list never stop a run: without an exception every one runs |
| Pipelines.GateStopsRun | hcs-lib/src/core/PipelineManager.ts:34-37 | errors on the board before a gated phase end the run there, skipping it and every later phase |
| Pipelines.PipelineManager.constructor | hcs-lib/src/core/PipelineManager.ts:11-17 | a new manager has no phases |
| Pipelines.PipelineManager.RegisterPhase | hcs-lib/src/core/PipelineManager.ts:20-23 | the phase is appended to the list |
| Pipelines.PipelineManager.ExecutePipeline | hcs-lib/src/core/PipelineManager.ts:31-42 | the loop leaves the context, the ingest state and the disk as `RunPhases` describes |
| Pipelines.PipelineManager.RunPhase | hcs-lib/src/core/PipelineManager.ts:39 | one phase's `execute` leaves the state as `PhaseStep` describes |
| HcsManagers.RunForModel | hcs-lib/src/core/HcsManager.ts:95-122 | a model run reports the model's id, and success exactly when it has no error |
| HcsManagers.RunForModelMeaning | hcs-lib/src/core/HcsManager.ts:95-122 | an id whose first segment names no set is refused before any phase runs; otherwise the run reports the errors of a fresh context after the registered phases, on the set that segment names |
| HcsManagers.RunModelsOrder | hcs-lib/src/core/HcsManager.ts:151-154 | without an exception, the inner loop appends one result per model id, in order |
| HcsManagers.RunSetsOrder | hcs-lib/src/core/HcsManager.ts:143-155 | without an exception, the two loops give one result per model id of the sets, in registry and map order |
| HcsManagers.FirstWithKey | hcs-lib/src/core/HcsManager.ts:174-177 | the position of the first error with that `filePath::message` key, or the length when none has it |
| HcsManagers.FirstWithKeyAppend | hcs-lib/src/core/HcsManager.ts:176-178 | an appended error does not move the first position of a key already seen |
| HcsManagers.KeepFirstKeys | hcs-lib/src/core/HcsManager.ts:165-181 | the merged list has exactly the keys of the errors merged |
| HcsManagers.KeepFirstUnique | hcs-lib/src/core/HcsManager.ts:165-181 | no two errors of the merged list share a key |
| HcsManagers.KeepFirstOrder | hcs-lib/src/core/HcsManager.ts:165-181 | each merged error is the first one with its key, and keys keep the order in which they first appear |
| HcsManagers.KeysCollide | hcs-lib/src/core/HcsManager.ts:174 | a witness: two different errors can share a key when a path or a message holds `::`, and then only the first is kept |
| HcsManagers.FailingErrorsMeaning | hcs-lib/src/core/HcsManager.ts:168-172 | the errors merged are exactly those of the failed runs |
| HcsManagers.DeduplicatedMeaning | hcs-lib/src/core/HcsManager.ts:160-186 | the results keep their ids and flags; every failed result holds the one merged list, which has the failed runs' keys and only their errors; successful results are left alone |
| HcsManagers.SomeFailed | hcs-lib/src/core/HcsManager.ts:158 | `hasErrors` holds exactly when some result failed |
| HcsManagers.Deduplicate | hcs-lib/src/core/HcsManager.ts:165-186 | the merge loop, with its key set and growing list, computes `Deduplicated` |
| HcsManagers.MergeErrors | hcs-lib/src/core/HcsManager.ts:172-181 | merging one failed result's errors extends the merged list and key set exactly as merging all errors so far would |
| HcsManagers.FailOnFileChangesRefused | hcs-lib/src/core/HcsManager.ts:128-130 | the option `failOnFileChanges` is refused before any model runs |
| HcsManagers.RunForAllMeaning | hcs-lib/src/core/HcsManager.ts:124-204 | a successful run of all models has one result per model id of the discovered sets, in order; `hasErrors` holds exactly when one failed; then every failed result holds the merged list, and a successful result holds no error |
| HcsManagers.RunAllWithMeaning | hcs-lib/src/core/HcsManager.ts:143-203 | the same for any model run that reports its id |
| HcsManagers.MergedResults | hcs-lib/src/core/HcsManager.ts:158-203 | the reported results keep the ids; `hasErrors` holds exactly when one of them failed; successful results hold no error and failed results the merged list |
| HcsManagers.DefaultRunStops | hcs-lib/src/core/HcsManager.ts:74-85 | with the default phases, a run that ends without an exception either ran them all or stopped at conversion, validation, build or verification with errors |
| HcsManagers.HcsManager.constructor | hcs-lib/src/core/HcsManager.ts:43-57 | a new manager holds the search paths, is not initialized, and has the default phases or none |
| HcsManagers.HcsManager.RegisterPhase | hcs-lib/src/core/HcsManager.ts:90-92 | the phase is appended after those already registered |
| HcsManagers.HcsManager.Initialize | hcs-lib/src/core/HcsManager.ts:65-69 | a fresh discovery: on failure the exception, with the registry emptied; on success the registry holds the discovered sets |
| HcsManagers.HcsManager.EnsureInitialized | hcs-lib/src/core/HcsManager.ts:59-63 | an initialized manager keeps its registry; otherwise it initializes |
| HcsManagers.HcsManager.RunPipelineForModel | hcs-lib/src/core/HcsManager.ts:95-122 | after initialization, the result and the new ingest state and disk are those `RunForModel` describes; a failed initialization changes nothing |
| HcsManagers.HcsManager.RunPipelineForAll | hcs-lib/src/core/HcsManager.ts:124-204 | the result and the new ingest state and disk are those `RunForAll` describes |
| HcsManagers.HcsManager.Conclude | hcs-lib/src/core/HcsManager.ts:157-203 | the merge of the errors and the closing `initialize` give the result `Concluded` describes, leaving the disk alone |
| HcsManagers.HcsManager.RunAllModels | hcs-lib/src/core/HcsManager.ts:143-155 | the two loops leave the registry as it was and give the results, ingest state and disk that `RunSets` describes |
| HcsManagers.HcsManager.RunSetModels | hcs-lib/src/core/HcsManager.ts:151-154 | the inner loop gives the results, ingest state and disk that `RunModels` describes |
| HcsManagers.RunStopsAtGates | hcs-lib/src/core/PipelineManager.ts:29-40 | a phase list whose gated phases sit at positions 1 to 4 runs, without an exception, either to the end or to a gate among them with errors on the board |
| HcsManagers.DeduplicatedShape | hcs-lib/src/core/HcsManager.ts:160-186 | deduplication keeps every result's model id and flag, leaves successful results as they are and gives every failed one the merged list |
| HcsManagers.RunSetsSuccessEmpty | hcs-lib/src/core/HcsManager.ts:143-155 | when every run reports errors exactly on failure, every successful result of the loop over config sets has no errors |
| HcsManagers.RunModelsSuccessEmpty | hcs-lib/src/core/HcsManager.ts:151-154 | the same for the loop over one set's models |
| ResourceManagers.RefOfInjective | hcs-lib/src/configset/resourceManager.ts:67 | two files of one category get the same reference only when they are the same file |
| ResourceManagers.IdOf | hcs-lib/src/configset/resourceManager.ts:59-64 | a truthy string `$id` is used as the key; a falsy one is skipped; a `null` document, or a truthy `$id` that is not a string, makes the loop throw |
| ResourceManagers.LoadFilesRefs | hcs-lib/src/configset/resourceManager.ts:52-69 | every reference the loop adds is that of a `.json` file of the listing |
| ResourceManagers.LoadFilesAbandons | hcs-lib/src/configset/resourceManager.ts:49-72 | a file that fails abandons the rest of its folder: the result is that of the files before it alone |
| ResourceManagers.LoadFilesStores | hcs-lib/src/configset/resourceManager.ts:52-69 | a file that loads is found by its reference holding its parsed content, unless a later file of the listing has the same name |
| ResourceManagers.LoadFilesKeeps | hcs-lib/src/configset/resourceManager.ts:52-69 | a reference no file of the listing produces keeps its entry |
| ResourceManagers.PrefixesExclusive | hcs-lib/src/configset/resourceManager.ts:100-106 | the three reference prefixes exclude one another |
| ResourceManagers.CategorizeFromMeaning | hcs-lib/src/configset/resourceManager.ts:99-107 | each reference lands in exactly the category its prefix names, holding its resource, and in no other |
| ResourceManagers.CategorizedMeaning | hcs-lib/src/configset/resourceManager.ts:93-110 | `getResources` files each reference under the category its prefix names, and drops references with no known prefix |
| ResourceManagers.LoadFilesDistinct | hcs-lib/src/configset/resourceManager.ts:63-68 | the maps the loop builds never hold a key twice |
| ResourceManagers.LoadedResourcesCategorized | hcs-lib/src/configset/resourceManager.ts:28-43 | after `loadAll`, every loaded reference is filed under the category its prefix names |
| ResourceManagers.ResourceManager.constructor | hcs-lib/src/configset/resourceManager.ts:10-15 | a new manager holds the root and two empty maps |
| ResourceManagers.ResourceManager.LoadAll | hcs-lib/src/configset/resourceManager.ts:28-43 | the maps afterwards are those `LoadAllMaps` computes from the disk alone |
| ResourceManagers.ResourceManager.LoadResourcesFromDirectory | hcs-lib/src/configset/resourceManager.ts:48-73 | the maps afterwards are those `LoadDirectory` computes from the maps before |
| ResourceManagers.ResourceManager.GetResourceById | hcs-lib/src/configset/resourceManager.ts:78-80 | `null` for an absent id or a falsy stored value, otherwise the stored value |
| ResourceManagers.ResourceManager.GetResourceByRef | hcs-lib/src/configset/resourceManager.ts:85-87 | `null` for an absent reference or a falsy stored value, otherwise the stored value |
| ResourceManagers.ResourceManager.GetResources | hcs-lib/src/configset/resourceManager.ts:93-110 | the categorized view of the reference map |
| LegacyValidators.NextQuote | hcs-lib/src/validators/baseJsonValidator.ts:64 | the first `"` at or after the index, or the end: no quote lies in between |
| LegacyValidators.MatchAt | hcs-lib/src/validators/baseJsonValidator.ts:64 | a match at an index starts with the quoted field there, and its capture is a non-empty span closed by a quote |
| LegacyValidators.LeftmostMatch | hcs-lib/src/validators/baseJsonValidator.ts:64-67 | `exec` finds the leftmost index where the pattern matches, with its capture; with `$` in the field nothing matches |
| LegacyValidators.LineHit | hcs-lib/src/validators/baseJsonValidator.ts:67-93 | a line gives a span exactly when the pattern matches on it |
| LegacyValidators.LineHits | hcs-lib/src/validators/baseJsonValidator.ts:59-97 | one outcome per line of the printed document |
| LegacyValidators.LineHitSpan | hcs-lib/src/validators/baseJsonValidator.ts:72-93 | in key mode the span covers the field after the opening quote; in value mode a copy of the captured text beginning between the match and the value itself |
| LegacyValidators.FindInLinesMeaning | hcs-lib/src/validators/baseJsonValidator.ts:47-102 | the scan over the printed text's lines gives `{0, 0, 0}` when no line matches, else the first line with a match and its span |
| LegacyValidators.DollarFieldNeverFound | hcs-lib/src/validators/baseJsonValidator.ts:64 | a field holding `$`, such as `$id`, is never found, so its position is the top of the file |
| LegacyValidators.ValueFoundInKey | hcs-lib/src/validators/baseJsonValidator.ts:74-75 | a witness on one line: in value mode the search for the captured text starts at the key's opening quote, so a value equal to the field is found inside the key |
| LegacyValidators.BaseErrorsShape | hcs-lib/src/validators/schemaValidator.ts:37-82 | at most one `$id` error, then at most one `$version` error, each against the file at the top of the file |
| LegacyValidators.SchemaErrorsThrows | hcs-lib/src/validators/schemaValidator.ts:95-103 | the validator throws exactly for `null`, an object with no keys, and a path holding `./` |
| LegacyValidators.SchemaErrorsOfAjv | hcs-lib/src/validators/schemaValidator.ts:105-130 | one error per AJV failure, in order, at the line its path ends in, with the structural checks skipped; no AJV failure gives the structural checks; a compile exception gives one engine error |
| LegacyValidators.BaseValidations | hcs-lib/src/validators/schemaValidator.ts:37-82 | the method computes `BaseErrors` |
| LegacyValidators.Validate | hcs-lib/src/validators/schemaValidator.ts:92-136 | the method computes `SchemaErrors` |
| LegacyValidateAll.ProcessCategoryEmpty | hcs-lib/src/validators/validateAll.ts:49-60 | the record stays empty exactly when it was empty and no resource's validator returned errors |
| LegacyValidateAll.ProcessCategorySource | hcs-lib/src/validators/validateAll.ts:52-56 | every entry of the record is a list some resource's validator returned for that full path, or was there before |
| LegacyValidateAll.ProcessCategoryNonEmpty | hcs-lib/src/validators/validateAll.ts:54-56 | every list stored is non-empty |
| LegacyValidateAll.ValidationOfMeaning | hcs-lib/src/validators/validateAll.ts:24-39 | `success` holds exactly when no schema, model or instance reported an error, and every full path in `errors` holds a non-empty list |
| LegacyValidateAll.ProcessEntries | hcs-lib/src/validators/validateAll.ts:49-60 | the loop over one category computes `ProcessCategory` |
| LegacyValidateAll.ValidateAll | hcs-lib/src/validators/validateAll.ts:24-39 | the result is `ValidationOf` the resource manager's references |
| LegacyInstanceBuilder.ParsePath | hcs-lib/src/builders/instanceBuilder.ts:31 | the parsed base holds no separator |
| LegacyInstanceBuilder.LastIndexOf | hcs-lib/src/builders/instanceBuilder.ts:35 | the index of the last occurrence of the segment, or -1 when it does not occur |
| LegacyInstanceBuilder.InstanceBuilt | hcs-lib/src/builders/instanceBuilder.ts:27-62 | a successful build returns the same object with the instance path; it fails exactly when the directory has a `models` segment and compiling the object rejects it, with that error |
| LegacyInstanceBuilder.Build | hcs-lib/src/builders/instanceBuilder.ts:27-62 | the in-place rewrite of the last `models` segment returns what the build specification says |
| LegacyInstanceBuilder.NoModelsKeepsPath | hcs-lib/src/builders/instanceBuilder.ts:35-42 | a path whose directory has no `models` segment comes back unchanged with its object |
| LegacyInstanceBuilder.FileNamedModelsKept | hcs-lib/src/builders/instanceBuilder.ts:31-35 | only the directory is examined: a file named `models` in any one-segment directory other than `models` keeps its path |
| LegacyInstanceBuilder.ResolveRelative | hcs-lib/src/builders/instanceBuilder.ts:46-47 | plain segments after a leading `..` resolve to themselves |
| LegacyInstanceBuilder.NormalizeRelative | hcs-lib/src/builders/instanceBuilder.ts:46-47 | a relative path of plain segments after `..` normalises to itself |
| LegacyInstanceBuilder.NormalizeKeeps | hcs-lib/src/builders/instanceBuilder.ts:46-47 | a relative path without a trailing separator whose segments resolve to themselves is already normal |
| LegacyInstanceBuilder.ResolveDotsPlain | hcs-lib/src/builders/instanceBuilder.ts:46-47 | resolving plain segments appends them to the stack unchanged |
| LegacyInstanceBuilder.ModelRefBecomesInstanceRef | hcs-lib/src/builders/instanceBuilder.ts:31-47 | a model reference `../models/<file>` becomes `../instances/<file>` |
| LegacyBuild.SchemaPass | hcs-lib/src/builders/buildAll.ts:59-75 | the schema pass fails exactly when the builder throws on some schema; a successful pass appends one new object per schema to the heap and keeps the objects already there |
| LegacyBuild.SchemaPassHandles | hcs-lib/src/builders/buildAll.ts:59-75 | every reference the schema pass registers names an object of its heap |
| LegacyBuild.Values | hcs-lib/src/builders/buildAll.ts:60 | the resources of a category, one per entry and in order |
| LegacyBuild.ModelPass | hcs-lib/src/builders/buildAll.ts:77-78 | the model pass adds one heap object per model |
| LegacyBuild.ModelPassHandles | hcs-lib/src/builders/buildAll.ts:77-78 | every reference the model pass registers names an object of its heap |
| LegacyBuild.ModelPassHeap | hcs-lib/src/builders/buildAll.ts:77-78 | the model pass appends the model resources themselves to the heap |
| LegacyBuild.ModelPassHandle | hcs-lib/src/builders/buildAll.ts:59-78 | the i-th model gets the i-th new handle unless a later model has the same reference |
| LegacyBuild.InstancePass | hcs-lib/src/builders/buildAll.ts:80-82 | a successful instance pass adds no object: it only registers new names for the models' objects |
| LegacyBuild.InstancePassFailure | hcs-lib/src/builders/buildAll.ts:59-82 | the instance pass fails exactly when the instance builder throws on some model |
| LegacyBuild.InstancePassHandles | hcs-lib/src/builders/buildAll.ts:80-82 | every reference the instance pass registers names an object of the heap |
| LegacyBuild.BuiltResourcesOf | hcs-lib/src/builders/buildAll.ts:54-90 | schemas, then models, then instances: every registered reference names a heap object, the heap holds one object per schema and per model, and the build fails, with a build-time error, exactly when a schema or instance build throws |
| LegacyBuild.Renamed | hcs-lib/src/builders/buildAll.ts:63-64 | the instance names of the models, one per model and in order |
| LegacyBuild.InstancePassNaming | hcs-lib/src/builders/buildAll.ts:59-82 | a successful instance pass over model references registers exactly their instance names, with consecutive handles, and keeps the heap |
| LegacyBuild.NamingKeeps | hcs-lib/src/builders/buildAll.ts:64 | a reference that no step registers keeps its handle |
| LegacyBuild.NamingHandle | hcs-lib/src/builders/buildAll.ts:64 | a name registered at position i that no later name repeats ends with handle next + i |
| LegacyBuild.NamingSplit | hcs-lib/src/builders/buildAll.ts:64 | registering two runs of names one after the other is registering their concatenation, the handles running on |
| LegacyBuild.KeysHandle | hcs-lib/src/builders/buildAll.ts:77-78 | registering the keys of a map gives the i-th key handle next + i when no later key repeats it |
| LegacyBuild.ModelAndInstanceShareObject | hcs-lib/src/builders/buildAll.ts:54-90 | after a successful build, a model's reference and its instance reference are registered under one handle, and the heap object there is the model resource itself (`SharesObject`) |
| LegacyBuild.ModelPassNaming | hcs-lib/src/builders/buildAll.ts:77-78 | the model pass registers the model references in order, from the first new handle up |
| LegacyBuild.PassNames | hcs-lib/src/builders/buildAll.ts:77-78 | the model pass registers the i-th model, when no later model repeats its reference, under the i-th new handle, whose object is the model itself |
| LegacyBuild.PassSharesObject | hcs-lib/src/builders/buildAll.ts:80-82 | when a model reference already names its own object, a successful instance pass gives its instance reference that same handle and keeps the model's |
| LegacyBuild.PassesNameInstance | hcs-lib/src/builders/buildAll.ts:80-82 | a successful instance pass registers the i-th model's instance name under handle next + i |
| LegacyBuild.RenamedHandle | hcs-lib/src/builders/buildAll.ts:80-82 | registering the instance names of distinct model references gives the i-th one handle next + i |
| LegacyBuild.RenamedDistinct | hcs-lib/src/builders/buildAll.ts:80-82 | distinct model references have distinct instance names |
| LegacyBuild.ModelAndInstanceShareBuiltObject | hcs-lib/src/builders/buildAll.ts:54-90 | with the real instance builder, after a successful build a model `../models/<file>` and `../instances/<file>` are registered under one handle holding the model resource itself (`SharesObject`) |
| LegacyBuild.NamesOfRef | hcs-lib/src/builders/buildAll.ts:116-125 | for a reference `../<category>/<file>` the config folder is the category and the config file name is the file |
| LegacyBuild.Assess | hcs-lib/src/builders/buildAll.ts:136-182 | the compared object carries the latest version; without versions on disk no version file exists and the build changes the file |
| LegacyBuild.StageVersion | hcs-lib/src/builders/buildAll.ts:198-245 | writing version k changes only the entity's heap object and, without an exception, writes exactly the versioned file with the staged object and the unversioned file with the object whose id is restored |
| LegacyBuild.WriteStaged | hcs-lib/src/builders/buildAll.ts:215-245 | the same for an existing version folder |
| LegacyBuild.PersistOne | hcs-lib/src/builders/buildAll.ts:105-249 | one loop pass changes only the entity's heap object; a reference not starting with `../` throws before anything changes; with failOnFileChanges nothing is written |
| LegacyBuild.PersistOneFollowsTable | hcs-lib/src/builders/buildAll.ts:147-249 | content equal to the latest version is kept with nothing written; with failOnFileChanges a change throws before any write; otherwise the decided version is written with the staged object and the unversioned file with the restored one, and no other file changes |
| LegacyBuild.FirstBuildWritesVersionOne | hcs-lib/src/builders/buildAll.ts:147-214 | without a version folder, version 1 is written, the unversioned file beside it, and the object ends with `$version` 1 |
| LegacyBuild.PutPut | hcs-lib/src/builders/buildAll.ts:64 | setting a key of the built map twice keeps the second value in the first place |
| LegacyBuild.PutSwap | hcs-lib/src/builders/buildAll.ts:64 | setting a present key commutes with setting another key |
| LegacyBuild.WithVersionTwice | hcs-lib/src/builders/buildAll.ts:156-157 | suffixing an object twice is suffixing it once with the second id and version |
| LegacyBuild.WithVersionProps | hcs-lib/src/builders/buildAll.ts:156-157 | suffixing sets both `$id` and `$version` |
| LegacyBuild.FieldMismatchDiffers | hcs-lib/src/builders/buildAll.ts:256-289 | objects differ when a property of the first has no equal counterpart in the second |
| LegacyBuild.CorrectedStagingIsStable | hcs-lib/src/builders/buildAll.ts:156-235 | with corrected staging, a staged version equals what the next build compares with it, so an unchanged rebuild finds equal content |
| LegacyBuild.CorrectedRebuildKeeps | hcs-lib/src/builders/buildAll.ts:147-187 | with corrected staging, rebuilding an unchanged entity whose latest version a build wrote writes nothing and throws nothing |
| LegacyBuild.AsWrittenStagingDrifts | hcs-lib/src/builders/buildAll.ts:156-220 | as written, version 2 staged on top of version 1 has the id `cs.schemas.s.1.2`, and the next build's comparison finds it different |
| LegacyBuild.AsWrittenUnversionedName | hcs-lib/src/builders/buildAll.ts:212-214 | as written, the unversioned file of `../schemas/s.json` with id `cs.schemas.s` is named after the id; corrected it is `s.json` |
| LegacyBuild.CorrectedUnversionedIsLoadedFile | hcs-lib/src/builders/buildAll.ts:212-214 | corrected, the unversioned file of a resource loaded from `<category>/<file>` is that file, whatever its `$id` |
| LegacyBuild.PersistAll | hcs-lib/src/builders/buildAll.ts:105-250 | the loop keeps the heap's size; with failOnFileChanges nothing is written; when no reference starts with `../` the first one throws and nothing changes |
| LegacyBuild.ProcessVersioningAndPersistence | hcs-lib/src/builders/buildAll.ts:96-251 | for either variant (`AsWritten` is the code), the loop on the live heap and disk ends in the state and exception `PersistAll` of that variant computes |
| LegacyBuild.PersistTurn | hcs-lib/src/builders/buildAll.ts:105-249 | one loop turn: an exception is the outcome `PersistAll` gives for the remaining references; otherwise `PersistAll` of the rest from the new heap and disk is that of the remaining references from the old ones |
| LegacyBuild.PersistEntry | hcs-lib/src/builders/buildAll.ts:105-249 | for either variant, the loop body on the live heap and disk ends in the state `PersistOne` of that variant computes |
| LegacyBuild.WriteVersion | hcs-lib/src/builders/buildAll.ts:198-245 | for either variant, the writes on the live heap and disk end in the state `StageVersion` of that variant computes; as written the `$id` is suffixed a second time |
| LegacyBuild.WriteStagedVersion | hcs-lib/src/builders/buildAll.ts:215-245 | for either variant, the writes on the live heap and disk end in the state `WriteStaged` of that variant computes; as written the unversioned file is named after `$id` |
| LegacyBuild.BuildAllOutcome | hcs-lib/src/builders/buildAll.ts:17-46 | a failed validation throws with nothing written; a failed build throws with nothing written; with failOnFileChanges nothing is ever written |
| LegacyBuild.BuiltOutcome | hcs-lib/src/builders/buildAll.ts:26-31 | after validation, a failed build throws and writes nothing; with failOnFileChanges nothing is written |
| LegacyBuild.BuildResources | hcs-lib/src/builders/buildAll.ts:54-90 | the registry's resources are built as BuiltResourcesOf says |
| LegacyBuild.BuildSchemas | hcs-lib/src/builders/buildAll.ts:73-75 | the schema loop computes the schema pass from an empty map |
| LegacyBuild.BuildModels | hcs-lib/src/builders/buildAll.ts:77-78 | the model loop computes the model pass |
| LegacyBuild.BuildInstances | hcs-lib/src/builders/buildAll.ts:80-82 | the instance loop computes the instance pass |
| LegacyBuild.InstanceTurn | hcs-lib/src/builders/buildAll.ts:81 | one instance build: a throw ends the pass with that error; otherwise the rest of the pass runs on the registry with the instance name added under the current handle |
| LegacyBuild.BuildAll | hcs-lib/src/builders/buildAll.ts:17-34 | for either variant (`AsWritten` is the code), the disk ends in the state and the exception `BuildAllOutcome` of that variant computes |
| LegacyBuild.BuildAndPersist | hcs-lib/src/builders/buildAll.ts:26-31 | for either variant, the disk ends in the state and the exception `BuiltOutcome` of that variant computes |

## Left out

- Concurrency and asynchrony. `async`/`await`, `Promise.all` and `Promise.allSettled` run in order, one after another. Nothing in the code depends on interleaving.
- Library internals. `JSON.parse`, `JSON.stringify`, AJV (compile and validate) and git are arbitrary functions supplied by the caller.
  - The parser's messages are not modelled.
  - The git adapter's fail-safe `true` on error is whatever the oracle answers.
- `LegacyValidators.Validate`, `LegacyValidators.SchemaErrors`, `LegacyInstanceBuilder.InstanceBuilt`, `LegacyInstanceBuilder.Build`: the AJV oracle answers from its arguments alone. The legacy schema validator and instance builder each keep one Ajv instance for a whole `validateAll` or `buildAll` (`validators/schemaValidator.ts` line 11, `builders/instanceBuilder.ts` line 12), so in the code a second schema with an `$id` already compiled throws "already exists", and a `$ref` resolves only to schemas compiled earlier. Neither effect of that history is captured. The pipeline validators create a fresh Ajv per call (`core/validators/BaseJsonValidator.ts` line 53), which the oracle matches.
- `buildFullPathFromRelativePath` and `path.join`/`path.resolve` outside the instance builder are a path adapter supplied by the caller.
- Timestamps. The `timestamp` stored beside each blackboard value (`Date.now()`) is not modelled.
- Logging. All the `Log` and `console` output is left out.
  - The exception is the log line of `validateResource`, whose evaluation can throw (see Findings).
- JavaScript's ordering of integer-like object keys is not modelled. Objects keep insertion order, which is the order for the ids and names these files carry.
- `deepMerge` index keys. When the target is an array, index-named keys of the source are not merged into it. The array comes back unchanged, which is what survives a JSON round trip.
- Rendering of exceptions. An exception's text (`${error}`) is the model's error string. Only the messages the code builds itself are spelled out.
- Non-JSON values (functions, `NaN`) do not arise: values are what `JSON.parse` produces. Numbers are integers. `undefined` arises in one place, `builtObj.$id = originalId` of the legacy build for a resource without `$id` (buildAll.ts:213, 229 and 243); see the next line.
- `LegacyBuild.RestoreId`, `LegacyBuild.WriteStaged`, `LegacyBuild.WriteStagedVersion`: restoring an absent `$id` removes the key, where the code leaves it in its slot with the value `undefined`. `JSON.stringify` drops it, so the written text is the same. The difference shows when the same object is stamped again, as the instance entry that shares it with its model is: the code fills `$id` back into its old slot, before `$version`, while the model appends it after `$version`. So the versioned files of such an instance differ from the code's in key order only.
- Regular expressions. They are written out as the scans they perform. In the legacy field search, a field containing `$` never matches. Other regular-expression metacharacters in a field name are taken literally.
- Custom phases. Only the nine built-in phase classes, with their default strategies, can be registered. Phase objects supplied by a user are not modelled.
- The problem-resolution phase returns without doing anything. It is a phase kind that leaves the state as it is.
- `Validators.FormatValidationError`: the `formatValidationError` overrides in `core/validators/SchemaValidator.ts` and `core/validators/ModelValidator.ts` are identical to the base one and are modelled once.
- `validators/modelValidator.ts` and `validators/instanceValidator.ts` are not part of this model. The legacy model and instance validators are parameters of `validateAll`.
- `builders/schemaBuilder.ts` is not part of this model. The legacy schema builder is a parameter of `buildAll`. `ModelBuilder`, an identity pass, is modelled by the model pass handing on the resource object itself.
- The legacy `configset/configsetManager.ts` is not modelled. That covers its config-set wrapper, the module-global cache, and `createSchema`/`createModel`/`createInstance`, which go through the schema, model and instance managers. It is file-creation plumbing around the resource registry, and the registry's `loadAll` is modelled. Its `validateAll` and `buildAll` forward to the modelled functions of the same names.
- `HcsManager`'s `clearCache`, `listConfigSets`, `createConfigSet`, `createSchemaInConfigSet`, `createModelInConfigSet`, `getConfigSetByResourceId`, `resolveAbsPathFromId` and `buildFilePathById` (`core/HcsManager.ts` lines 209-265) are not modelled separately. Each one calls `ensureInitialized` and then delegates in a single line to the config-set registry or to a config set. The registry's lookups are modelled.
- The file-system adapter's I/O bodies are not modelled. Reading, writing, existence and directory creation act on the file store, and their failures are the exceptions the adapter would raise. Every call the modelled code makes to the adapter, `createDirectory` of the versioning phase included, is modelled as such a call.
- `LegacyBuild.BuildAll`: the relative-path normalisation of `path.join` is modelled only for the instance builder's rewrite. `path.sep` is `/`.
- `LegacyBuild.BuildAll`: the code writes into the registry's own model objects. It sets `$version` (buildAll.ts:157, 205, 221 and 235) and never removes it, and an unchanged entry keeps the `$id` suffixed at line 156 (line 171). The model builds from a copy and leaves `rm.resourcesByRef` as it was. A second build on the same registry without a `loadAll` in between, which sees those edited objects in the code, is therefore not modelled. A later `loadAll` does not see the files the build wrote either.
- `HcsManagers.HcsManager.RunPipelineForAll` and `LegacyBuild.BuildAll`: the pipeline runner and the legacy builders are passed in as function values. The methods state their effect through the specification functions of those values.
- Recursion on JSON values terminates by the size of the value. Recursion on references terminates by the number of unvisited pool entries. Neither needs a fuel bound.

## Findings

| source | as written | input that shows it | evidently intended | confidence | as-written member | corrected member |
|---|---|---|---|---|---|---|
| hcs-lib/src/phases/verification/DefaultVerificationStrategy.ts:128 | the log line reads `schema.$id` of every looked-up schema, including the `null` of a schema that was not built, so the phase throws before the loop's skip at lines 129-133 | a model whose `$ref` names a schema id with no `build:schemas` entry | a missing schema is skipped silently and the other schemas are still checked | not executed | Verification.MissingSchemaThrows | Verification.MissingSchemaSkipped |
| hcs-lib/src/builders/buildAll.ts:220 | the new version's `$id` is built from `builtObj.$id`, which line 156 already suffixed with the latest version | an unchanged schema `cs.schemas.s` with version 1 on disk whose version 2 is then written: its `$id` becomes `cs.schemas.s.1.2` | the versioned `$id` is the original id suffixed once, `cs.schemas.s.2`, so an unchanged rebuild finds equal content | not executed | LegacyBuild.AsWrittenStagingDrifts | LegacyBuild.CorrectedStagingIsStable |
| hcs-lib/src/builders/buildAll.ts:213-214 | the unversioned file is written under the restored `$id` as its file name | `../schemas/s.json` with `$id` `cs.schemas.s` is written to `schemas/cs.schemas.s` | the unversioned file is the file the entity was loaded from, `schemas/s.json` | not executed | LegacyBuild.AsWrittenUnversionedName | LegacyBuild.CorrectedUnversionedIsLoadedFile |
