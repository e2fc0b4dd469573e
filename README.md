# POET export core in Dafny

POET is a command-line tool that exports the translations of a POEditor project
into Xcode localisation files, one `.lproj` folder per language. This project
models the part of it that turns data into files and answers:

- **Decoding.** The records of one language's JSON export become translations.
  A record is a term, a context, an optional comment and a definition. The
  definition is a single string, a dictionary of plural forms, or nothing.
- **Grouping and writing.** Translations are grouped by context, in input order.
  The groups are written in ascending order of context name. Each group becomes
  an Apple `.strings` table and, when it has plural forms, a `.stringsdict`
  property list. The first thrown error stops the remaining contexts.
- **Rendering.** `.strings` rendering skips translations without a value,
  separates entries with a blank line, and turns the translator's note into a
  block comment. Line breaks and double quotes in the value are escaped; the
  term is copied as it is. `.stringsdict` rendering keeps only non-empty plural
  forms and adds the fixed format keys. A later term overwrites an earlier one.
- **The export loop.** Every configured language is processed in sorted order,
  with its code rewritten for Xcode. A download error or a thrown write error
  is reported and the loop goes on. Two crashes stop the whole program: a
  record without a string term or context, and an export link that is not a
  URL.
- **The export folder.** The folder is chosen from the configured path and the
  working directory.
- **The API clients.** Each of the four clients processes a response in its own
  way:
  - the version 2 client (`Core`);
  - the first-API client of the tool's own package (`POEditorAPI/Source`);
  - the `WebService` protocol extension;
  - its older copy, which returns the result untyped.

  Each checks the envelope, maps a "fail" status to an error and looks up the
  value under the call's result key. It then converts that value to the type
  the caller asked for. The requests of the two newer clients are modelled as
  well, with their endpoint, path or action, fields and result key.

The model is organised as follows:

- File contents are values. `StringsText` is the `.strings` text and
  `PluralsDict` the `.stringsdict` dictionary.
- What the file system does is a parameter. A `FileSystem` lists the folders
  that cannot be created and the files whose write fails.
- The URL parser `URL(string:)` is a function parameter.
- A forced unwrap or `preconditionFailure()` is an explicit outcome: `Trapped`,
  `Trap`, or `None` from a decoder.
- The loops of the source are methods: the `.strings` builder, the plural
  dictionary builder, grouping, sorted writing and the language loop. Each
  method's `ensures` ties its result to a specification function, and the
  properties are proved about that function.

Points of the code that the model states explicitly:

- `processJSON` in Functions.swift uses a `notTranslated` case that the
  `TranslatedTerm` enum does not have. main.swift writes `.hasDefinition(nil)`
  instead. Both are `HasDefinition(None)` here, so one decoder serves both
  copies.
- A malformed record reaches `preconditionFailure()`, which ends the process,
  so no later language is exported (`StepTrapsIff`, `RunStopsOnlyAtTrap`). The
  forced cast of an export link that is not a URL ends it the same way.
- Only double quotes and line breaks are escaped; a backslash is not. A value
  holding a backslash followed by `n` therefore reads back as a line break
  (`EscapeConflatesLiteralBackslashN`). The round trip is proved only for
  values without a backslash (`StatementReadsBack`).
- The term is not escaped at all: a term holding a double quote does not read
  back (`QuotedTermDoesNotReadBack`).
- main.swift repeats the decode, group and write loop of `processJSON` inline.
  Both are modelled by `Processing.ProcessJSON`.
- main.swift's `writeFile(name:translations:to:)` is taken to be
  `Collection.writeFile` in Translation.swift.

## Model

| member | source | states |
|---|---|---|
| Translations.Entry | Tool/Source/Translation.swift:64-76 | a translation adds an entry exactly when it has a value (the definition, or the "other" plural form), and that entry is never empty |
| Translations.DisplayValue | Tool/Source/Translation.swift:64-71 | the value shown for a translation: its definition, or the "other" plural form (its meaning is stated by `Entry`) |
| Translations.CommentBlock | Tool/Source/Translation.swift:83-87 | a non-empty note as `/* … */` and a line break, literal backslash-n expanded; nothing otherwise (stated through `StringsTextSingle`) |
| Translations.Statement | Tool/Source/Translation.swift:90-92 | every key/value statement ends in `";` and a newline |
| Translations.StringsTextEmptyIff | Tool/Source/Translation.swift:58-98 | the `.strings` text is empty exactly when no translation has a value |
| Translations.StringsText | Tool/Source/Translation.swift:58-93 | the specification of the `.strings` text: the entries of the translations with a value, one newline between two consecutive ones (stated by the lemmas around it) |
| Translations.EntriesEmptyIff | Tool/Source/Translation.swift:73-76 | the list of entries is empty exactly when every translation is skipped |
| Translations.SkippedTranslationLeavesNoTrace | Tool/Source/Translation.swift:73-76 | inserting a translation without a value anywhere leaves the text unchanged |
| Translations.StringsTextAppend | Tool/Source/Translation.swift:78-81 | the text of two non-empty runs is the two texts joined by one newline, so entries are separated by a blank line |
| Translations.JoinBlankAppend | Tool/Source/Translation.swift:78-81 | joining two non-empty entry lists puts a single newline between them |
| Translations.StringsTextSingle | Tool/Source/Translation.swift:83-92 | one translation gives its comment block followed by its statement |
| Translations.StatementReadsBack | Tool/Source/Translation.swift:89-92 | a statement read back as `"term" = "value";` gives back the term and the value, for a term without quote or backslash (raw line breaks allowed) and a value without backslash |
| Translations.QuotedTermDoesNotReadBack | Tool/Source/Translation.swift:92 | the raw term breaks the statement when it holds a double quote |
| Translations.StringsTextSnoc | Tool/Source/Translation.swift:62-92 | one more translation adds nothing when skipped, otherwise a newline (unless the text was empty) and its entry |
| Translations.RenderEntry | Tool/Source/Translation.swift:83-92 | the loop body builds exactly the entry of a translation with a value: its note block, then its statement |
| Translations.BuildStringsText | Tool/Source/Translation.swift:58-93 | the loop that grows `tmpStr` produces the `.strings` text |
| Translations.PluralsDictKeys | Tool/Source/Translation.swift:105-150 | the plural dictionary has a key for exactly the terms of plural translations with at least one non-empty form |
| Translations.PluralsDict | Tool/Source/Translation.swift:105-151 | the specification of the plural dictionary, built in input order so a later term overwrites an earlier one (stated by `PluralsDictKeys` and `PluralsDictLastWins`) |
| Translations.PluralsDictLastWins | Tool/Source/Translation.swift:149 | a term's item comes from its last contributing translation |
| Translations.PluralItemContents | Tool/Source/Translation.swift:121-150 | an item holds exactly the format key and `items`; `items` holds the non-empty forms plus the two rule keys |
| Translations.CollectForms | Tool/Source/Translation.swift:133-139 | the sorted loop over plural categories keeps exactly the non-empty forms |
| Translations.BuildPluralsDict | Tool/Source/Translation.swift:115-151 | the loop over plural translations builds the plural dictionary |
| Translations.WriteFile | Tool/Source/Translation.swift:38-165 | `writeFile` skips non-`.strings` contexts, fails when the folder cannot be created, then writes the two tables |
| Translations.WriteFileOutcome | Tool/Source/Translation.swift:38-165 | the specification of `writeFile`: the files written, in order, and the error thrown (stated by `WriteFileErrors`, `StringsFileWritten` and `StringsdictFileWritten`) |
| Translations.WriteTables | Tool/Source/Translation.swift:56-164 | the `.strings` file is written if its text is not empty (a failed write throws); the `.stringsdict` file follows if the dictionary is not empty (a failed write is silent) |
| Translations.TablesOutcome | Tool/Source/Translation.swift:95-164 | the specification of the two writes once the folder is there (stated by `TablesErrors`, `TablesStringsWrite` and `TablesStringsdictWrite`) |
| Translations.TablesErrors | Tool/Source/Translation.swift:95-161 | once the folder is there, an error is thrown exactly when a non-empty `.strings` text cannot be written; it is `WriteFailed` of that path and nothing is written; a failing `.stringsdict` write throws nothing |
| Translations.WriteFileErrors | Tool/Source/Translation.swift:38-165 | `writeFile` throws exactly for a `.strings` context whose folder cannot be created (`FolderCreationFailed` of the folder) or whose non-empty text cannot be written (`WriteFailed` of `<folder>/<name>`); nothing is written when it throws |
| Translations.NonStringsContextWritesNothing | Tool/Source/Translation.swift:41-46 | a context whose last path component lacks the extension "strings" writes nothing and throws nothing |
| Translations.TablesStringsWrite | Tool/Source/Translation.swift:95-103 | once the folder exists, the `.strings` file is written exactly when the text is not empty and the write succeeds, with that text |
| Translations.TablesStringsdictWrite | Tool/Source/Translation.swift:115-164 | once the folder exists, a plural dictionary is written only when nothing was thrown and the dictionary is not empty; it holds that dictionary and is the last file |
| Translations.StringsFileWritten | Tool/Source/Translation.swift:41-103 | a `.strings` file is written exactly when the context is a `.strings` name, the folder exists, some translation has a value and the write succeeds; it carries the context's own file name and the text |
| Translations.StringsdictWritten | Tool/Source/Translation.swift:105-164 | a `.stringsdict` file is written only when nothing was thrown and some term has a non-empty plural form; it holds the plural dictionary and is the last file written |
| Translations.StringsdictFileWritten | Tool/Source/Translation.swift:105-164 | a `.stringsdict` file is written exactly when the context is a `.strings` name, the folder exists, the `.strings` write (if any) succeeds, the plural dictionary is not empty and its write succeeds; it is then the last file, `<base>.stringsdict`, and nothing is thrown |
| Escaping.EscapeHasNoNewline | Tool/Source/Translation.swift:90 | an escaped value holds no raw line break |
| Escaping.Escape | Tool/Source/Translation.swift:90 | the value escaping, newlines first and then double quotes (stated by the lemmas below) |
| Escaping.EscapeQuotesArePreceded | Tool/Source/Translation.swift:90 | every double quote in an escaped value is preceded by a backslash |
| Escaping.EscapeCons | Tool/Source/Translation.swift:90 | escaping works character by character: a line break becomes backslash-n, a quote backslash-quote, anything else itself |
| Escaping.ReplaceCharAppend | Tool/Source/Translation.swift:90 | replacing a character distributes over concatenation |
| Escaping.ReadQuotedEscape | Tool/Source/Translation.swift:90-92 | an escaped backslash-free value followed by a quote reads back as the value |
| Escaping.ReadQuotedPlain | Tool/Source/Translation.swift:92 | text without quotes or backslashes, raw line breaks included, reads back unchanged from between quotes |
| Escaping.EscapeConflatesLiteralBackslashN | Tool/Source/Translation.swift:90 | a line break and a literal backslash-n escape to the same text |
| Escaping.ExpandLineBreaks | Tool/Source/Translation.swift:85 | the left-to-right replacement of literal backslash-n by a line break in a note (stated by the next two lemmas) |
| Escaping.ExpandLeavesNoLiteralLineBreak | Tool/Source/Translation.swift:85 | a comment after expansion holds no literal backslash-n |
| Escaping.EscapeNewlinesUndoesExpand | Tool/Source/Translation.swift:85-90 | escaping line breaks undoes the comment's expansion of backslash-n, for text without raw line breaks |
| Paths.LastPathComponent | Tool/Source/Translation.swift:41 | the last path component is "/" or holds no slash |
| Paths.StripTrailingSlashes | Tool/Source/Translation.swift:41 | trailing slashes are removed from a prefix of the path |
| Paths.ExtensionDot | Tool/Source/Translation.swift:43 | the extension starts after the last dot, which is not the first character |
| Paths.PathExtension | Tool/Source/Translation.swift:43 | `pathExtension` of one path component: the text after the extension dot, or nothing (stated by `ExtensionParts`) |
| Paths.DeletingPathExtension | Tool/Source/Translation.swift:56 | `deletingPathExtension` of one path component: the text before the extension dot (stated by `ExtensionParts`) |
| Paths.ExtensionParts | Tool/Source/Translation.swift:43-56 | the extension holds no dot and ends the name after a dot; the base is a prefix of the name, equal to it exactly when there is no extension |
| Paths.BaseAndExtension | Tool/Source/Translation.swift:56 | the name without extension, a dot and the extension give back the name |
| Paths.AppendingPathComponent | Tool/Source/Translation.swift:96 | the joined path is the folder, exactly one separator and the component, nothing else |
| Paths.JoinThenLast | Tool/Source/Translation.swift:96 | the last component of a joined path is the component joined, when it holds no slash |
| Json.AsString | Tool/Source/Functions.swift:57 | `as? String` succeeds exactly on a string |
| Json.AsStringMap | Tool/Source/Functions.swift:69 | `as? [String: String]` succeeds exactly on a dictionary of strings, with the same keys and values |
| Json.AsObjectArray | Tool/Source/Functions.swift:51 | `as? [JSONDictionary]` succeeds exactly on an array of dictionaries, element by element |
| Json.AsObject | Core/Source/POEditor.swift:118 | `as? JSONDictionary` succeeds exactly on a dictionary |
| StringOrder.LessTransitive | Tool/Source/Functions.swift:92 | the string order used for sorting is transitive |
| StringOrder.Less | Tool/Source/Functions.swift:92 | `<` on strings, lexicographic by character (its order properties are the next lemmas) |
| StringOrder.LessTotal | Tool/Source/Functions.swift:92 | any two distinct strings are ordered |
| StringOrder.LeastExists | Tool/Source/Functions.swift:92 | every non-empty set of keys has a least element |
| StringOrder.InOrderSorted | Tool/Source/Functions.swift:92 | a key set in sorted order is strictly increasing and holds exactly the keys |
| StringOrder.Sort | Tool/Source/main.swift:197 | sorting keeps the same elements with the same multiplicities |
| StringOrder.SortSorted | Tool/Source/main.swift:197 | the sorted list is in ascending order |
| Processing.Classify | Tool/Source/Functions.swift:65-76 | a string definition is single, a dictionary of strings is plural with the same forms, anything else (or nothing) is no definition |
| Processing.DecodeRecord | Tool/Source/Functions.swift:57-79 | a record decodes exactly when its term and context are strings, carrying them, the classified definition and the comment if it is a string |
| Processing.Records | Tool/Source/Functions.swift:51-55 | an array of dictionaries gives its elements in order; anything else gives no records |
| Processing.DecodeAll | Tool/Source/Functions.swift:55-61 | decoding the export fails exactly when some record fails, and otherwise decodes each record in order |
| Processing.Grouped | Tool/Source/Functions.swift:81-89 | the dictionary of contexts, each record appended to its context's list; no list is empty |
| Processing.GroupedIsGroup | Tool/Source/Functions.swift:81-89 | there is a group for exactly the contexts that occur, holding their translations in input order |
| Processing.GroupAppend | Tool/Source/Functions.swift:81-89 | the group of a concatenation is the concatenation of the groups |
| Processing.EveryRecordInOneGroup | Tool/Source/Functions.swift:81-89 | the group sizes add up to the number of records: every record lands in exactly one group |
| Processing.DecodeAndGroup | Tool/Source/Functions.swift:53-90 | the decoding loop traps exactly when decoding fails, and otherwise builds the groups of the decoded records |
| Processing.WriteGroups | Tool/Source/Functions.swift:92-97 | writing the contexts in turn ends without error exactly when no context throws |
| Processing.WriteGroupsFirstError | Tool/Source/Functions.swift:92-97 | the error of the run is that of one context, and every context before it threw nothing |
| Processing.WriteInOrderStep | Tool/Source/Functions.swift:92-97 | writing the least remaining context and then the rest in order is writing all of them in order |
| Processing.WriteContextsStep | Tool/Source/Functions.swift:92-97 | one turn of the loop writes the least remaining context, and its error ends the whole run |
| Processing.WriteContexts | Tool/Source/Functions.swift:92-97 | the loop over the sorted context names writes the contexts in ascending order until the first error |
| Processing.ProcessJSON | Tool/Source/Functions.swift:48-98 | `processJSON` traps while decoding or writes the grouped contexts in order |
| Processing.ProcessJSONOutcome | Tool/Source/Functions.swift:48-98 | the specification of `processJSON`: a trap while decoding, or the grouped contexts written in order (stated by `ProcessTrapsIff`, `NonArrayWritesNothing` and `ErrorStopsRemaining`) |
| Processing.ProcessTrapsIff | Tool/Source/Functions.swift:57-61 | processing traps exactly when some record lacks a string term or context |
| Processing.NonArrayWritesNothing | Tool/Source/Functions.swift:51-55 | a top-level value that is not an array of dictionaries writes nothing and throws nothing |
| Processing.ErrorStopsRemaining | Tool/Source/Functions.swift:92-97 | contexts are written in strictly ascending order; an error is that of one context, and all earlier contexts succeeded |
| Processing.ExportFolder | Tool/Source/Functions.swift:33-43 | an absolute folder is used as it is; otherwise the folder (by default "POEditor") is joined to the working directory with one separator |
| Processing.ExportFolderAbsolute | Tool/Source/Functions.swift:35-43 | with an absolute working directory the export folder is absolute |
| Processing.ExportFolderDefault | Tool/Source/Functions.swift:33 | without a configured folder the export folder is "POEditor" in the working directory |
| Processing.LocaleCode | Tool/Source/Functions.swift:15-22 | zh-CN becomes zh-Hans, zh-TW becomes zh-Hant, every other code is kept |
| Processing.LocaleCodeIdempotent | Tool/Source/Functions.swift:15-22 | rewriting a rewritten code changes nothing |
| ToolMain.MainLocaleCode | Tool/Source/main.swift:201-218 | zh-CN becomes zh-Hans, zh-TW zh-Hant, en-us en and pt-br pt-BR; every other code is kept |
| ToolMain.MainLocaleCodeExtends | Tool/Source/main.swift:201-218 | the rewrite agrees with that of Functions.swift except that it also maps en-us to en and pt-br to pt-BR |
| ToolMain.MainLocaleCodeIdempotent | Tool/Source/main.swift:201-218 | rewriting a rewritten code changes nothing |
| ToolMain.StepReport | Tool/Source/main.swift:236-320 | a language's report carries its code and its rewritten code |
| ToolMain.LanguageStep | Tool/Source/main.swift:236-320 | the specification of one language: a crash gives nothing, otherwise the report with the files and the first error (stated by `StepTrapsIff` and `StepReport`) |
| ToolMain.StepTrapsIff | Tool/Source/main.swift:236-320 | a language crashes the program exactly when its export link is not a URL or one of its records lacks a string term or context |
| ToolMain.StepOfProcessed | Tool/Source/main.swift:238-309 | a downloaded export gives a crash or the report of what processing it wrote and threw |
| ToolMain.ExportLanguage | Tool/Source/main.swift:199-320 | one pass of the loop: a download error is reported, a trap in processing gives no report, otherwise the files written and the first write error |
| ToolMain.RunStopsOnlyAtTrap | Tool/Source/main.swift:197-321 | each language is reported in order up to the first one that traps, and all of them when none traps |
| ToolMain.RunIsPrefix | Tool/Source/main.swift:197-321 | the reports are those of the first languages in order; a trapped run ends at a language that traps, an untrapped one covers them all |
| ToolMain.RunLanguages | Tool/Source/main.swift:197-321 | the specification of the loop: the languages one after another until one crashes (stated by `RunIsPrefix` and `RunStopsOnlyAtTrap`) |
| ToolMain.MainExportFolder | Tool/Source/main.swift:192-193 | the same folder as the default of Functions.swift: "POEditor" joined to the working directory, its last component "POEditor" |
| ToolMain.ExportLanguages | Tool/Source/main.swift:197-321 | the language loop runs the languages in sorted order and stops at a trap |
| ToolMain.ExportCodes | Tool/Source/main.swift:197-321 | the loop over the sorted codes gives exactly the run of `RunLanguages` |
| ToolMain.LanguagesInSortedOrder | Tool/Source/main.swift:197-221 | reports come in ascending order of code, with the rewritten code; without a trap every configured language is reported |
| ApiCommon.CouldNotFind | Core/Source/POEditor.swift:136 | the message quotes the missing result key |
| ApiCommon.FailMessage | Core/Source/POEditor.swift:125-126 | the service's message if it is a string, else "Unknown Error" |
| ApiCommon.CastTo | Core/Source/POEditor.swift:139-152 | a value of the expected kind succeeds as it is (an integer only within the 64-bit range of `Int`), a string where a URL is expected is parsed (trapping when unparsable), anything else is "Unexpected result type" |
| ApiCommon.CastToEncoded | Core/Source/POEditor.swift:139-142 | a value of the expected kind, written as JSON, is returned unchanged |
| ApiCommon.CallFields | Core/Source/POEditor.swift:57-104 | every call sends the token plus exactly its own arguments |
| ApiCore.MakeRequest | Core/Source/POEditor.swift:55-110 | each call posts its fields to its own path below the version 2 endpoint, with its result key and expected type |
| ApiCore.PathOf | Core/Source/POEditor.swift:55-110 | the path of each call: projects/list, projects/add, languages/list, projects/export (stated by `MakeRequest`) |
| ApiCore.ResultKeyOf | Core/Source/POEditor.swift:55-110 | the result key of each call: projects, project, languages, url (stated by `MakeRequest`) |
| ApiCore.RequestsCarryToken | Core/Source/POEditor.swift:57-109 | every request goes below the endpoint and carries the token |
| ApiCore.ProcessResult | Core/Source/POEditor.swift:115-153 | no response dictionary, a fail status (a service error), no result dictionary, a missing key (`Could not find '<key>'`), each its own failure, in that order; a well-formed envelope holding the key gives exactly the cast of its value |
| ApiCore.FailIgnoresResult | Core/Source/POEditor.swift:123-137 | a fail status wins whatever the result entry holds |
| ApiCore.Complete | Core/Source/POEditor.swift:156-187 | a transport error is handed on, a non-dictionary body is an unexpected response, a dictionary is processed by `ProcessResult`; success means a well-formed envelope with a value of the expected kind |
| ApiCore.SuccessReturnsValue | Core/Source/POEditor.swift:129-142 | a well-formed success response returns exactly the value it carries |
| ApiSource.MakeRequest | POEditorAPI/Source/POEditor.swift:53-101 | each call posts to the single endpoint with the token and its action |
| ApiSource.ActionOf | POEditorAPI/Source/POEditor.swift:53-101 | the action of each call: list_projects, create_project, list_languages, export (stated by `MakeRequest`) |
| ApiSource.ResultKeyOf | POEditorAPI/Source/POEditor.swift:53-101 | the result key of each call: list, item, list, item |
| ApiSource.FieldsAreVersionTwoFieldsWithAction | POEditorAPI/Source/POEditor.swift:55-100 | the fields are those of the version 2 client plus the action |
| ApiSource.FindResult | POEditorAPI/Source/POEditor.swift:120 | the result is looked up at the top level first and inside `response` second |
| ApiSource.ProcessResult | POEditorAPI/Source/POEditor.swift:106-139 | no response dictionary, a fail status (a service error), a key found in neither place (`Could not find '<key>'`); a key found at the top level or in `response` gives exactly the cast of its value |
| ApiSource.TopLevelWins | POEditorAPI/Source/POEditor.swift:120-123 | when the key is at the top level, what `response` holds under it does not matter |
| ApiSource.Complete | POEditorAPI/Source/POEditor.swift:142-173 | a transport error is handed on, a non-dictionary body is an unexpected response, a dictionary is processed by `ProcessResult` |
| ApiSource.AgreesWithVersionTwoWithoutResult | POEditorAPI/Source/POEditor.swift:106-139 | on a response with no result anywhere both clients fail, and they report a service error on the same responses |
| ApiWebService.ProcessResult | POEditorAPI/WebService.swift:46-83 | not a dictionary, no response dictionary, a fail status (an unexpected response), a missing top-level key (`Could not find '<key>'`); a key present gives exactly the cast of its value; every failure is an unexpected response |
| ApiWebService.Complete | POEditorAPI/WebService.swift:86-108 | a transport error is handed on; a delivered body is processed by `ProcessResult`, so it can fail only with an unexpected response |
| ApiWebService.NeverServiceError | POEditorAPI/WebService.swift:46-108 | this client reports a service error only when the transport produced it |
| ApiLegacy.ProcessResult | POEditorAPI/POEditor.swift:76-100 | the raw value is found exactly when the envelope is well formed, has no fail status and holds the key at the top level; otherwise not a dictionary, no response dictionary, the fail message or `Could not find '<key>'` is thrown |
| ApiLegacy.Complete | POEditorAPI/POEditor.swift:103-139 | a transport error or a thrown error is handed on; a raw result found is converted by `CastTo` in the completion handler |
| ApiLegacy.SameAsProtocolExtension | POEditorAPI/POEditor.swift:76-139 | converting in the completion handler gives the same answer as the protocol extension for every input |

## Left out

- Network I/O: the URL session, form-POST encoding, task start and session setup. A response is modelled as what it delivers (`Transport`).
- The semaphore that makes a request synchronous, console input and output, and loading or saving `poet.json`.
- Directory creation, atomic writes and property-list encoding. File contents are values, and whether a folder or a write fails comes from the `FileSystem` parameter.
- `Locale(identifier:)` canonicalisation of a rewritten code and `localizedString`. `LocaleCode` models only the rewrite before it.
- `URL(string:)` is a function parameter. `Data(contentsOf:)` together with the export request is the `fetch` parameter of `ToolMain.ExportLanguages`.
- `JSONSerialization`: the model starts from a decoded `Json` value, so a body that fails to parse is not modelled.
- JSON numbers are integers. Fractional numbers and the bridging of booleans to `Int` are not modelled. A number outside the 64-bit range of `Int` fails the `Int` cast, as in Swift.
- String comparison is lexicographic by character code. Unicode collation and grapheme clusters are not modelled.
- The interactive project and language selection of main.swift (lines 28-190), including the percentage threshold, which compares floating-point values.
- main.swift's creation of the language folder before the request (lines 223-234). It runs only while the export folder does not exist, and when it fails the program ends with `exit(1)`. The model has no such exit: `ToolMain.RunStopsOnlyAtTrap` and `ToolMain.LanguagesInSortedOrder` describe only runs in which this creation does not fail. In the model a folder that cannot be created shows up later, as `FolderCreationFailed` from `writeFile`, and the loop goes on.
- The `export(with:format:forXcode:)` function of Functions.swift, including its raw-file branch. The command-line tool runs the inline loop of main.swift instead.
- The requests of the older first-API client (POEditorAPI/POEditor.swift), which build their fields around a fixed token.
- The demo script POEditorAPI/main.swift.
- ToolMain.ExportLanguages: a trap is reported as the reports so far plus a flag; the process ending at that point is not modelled further.
