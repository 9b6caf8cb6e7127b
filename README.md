# AI Prompt Library: a verified model of the prompt store

This project models in Dafny the core of the GNOME Shell extension "AI Prompt Library": the store of
prompt records behind its panel window, the built-in catalogue it starts with, and the string
helpers it uses when copying a prompt. The project proves properties of the model.

- `PromptManager` (module `Manager`, class `PromptManager`) owns the records, the recents list and
  the favourites. It changes them in place and writes them out after every change.
  - `_prompts` is a JavaScript `Map`. It is modelled as a `map` from id to record, together with
    `order`, the Map's insertion order.
  - `_recentPrompts` is a `seq` of ids, most recent first.
  - `_favorites` is a `Set`. It is modelled as a `seq` without duplicates, in insertion order.
  - `saved` is the last document `_savePrompts` wrote to `prompts.json`.
- The queries `getRecentPrompts`, `getFavoritePrompts`, `getCategories` and `getStatistics` are
  functions.
  - Their value-level definitions live in module `Library`. That module also holds the state
    transitions the methods are proved against: promoting an id in the recents list, toggling a
    favourite, and merging records by id.
- `searchPrompts` (module `Search` and `Manager.PromptManager.SearchPrompts`) filters by AI model,
  application, custom flag and tags. It does a case-insensitive substring search over title,
  description, content and tags, then ranks by usage.
- The serialisers:
  - `CsvExport` models `_exportAsCSV` as written. It also defines a corrected export that escapes
    every value, with a reader that parses its rows back.
  - `MarkdownExport` models `_exportAsMarkdown`: records grouped by AI model, in order of first
    appearance. It includes the `TypeError` the grouping throws for a model named like an inherited
    object property.
- `DefaultPrompts` holds the seventeen built-in records and the three catalogue filters.
- `Clipboard` models four helpers of `utils/clipboard.js`:
  - `_createContentPreview`, the whitespace-collapsed preview of at most 80 characters;
  - `processTemplateVariables`, the ordered literal replacement of placeholders, as written and
    corrected;
  - `_escapeRegExp`;
  - `formatForAIModel`, with its per-model helpers.
- `Wrappers`, `Seqs` and `Strings` hold `Option`/`Result` and the sequence and string operations
  the model uses. Examples are `Array.prototype.filter`, `String.prototype.includes`,
  `toLowerCase`, `join` and a global `replace`.

Choices made in the model:
- A falsy string argument (`undefined`, `null` or `''`) is the empty string.
- An optional field or argument is an `Option`.
- The clock is an integer parameter `now`. ISO timestamps compare in the same order as the
  instants they name.
- The generated id of `addPrompt` is a parameter.
- The `max-recent-prompts` setting is the parameter `setting`. `None` stands for missing settings.
- The document read from disk at start-up, and the object `importData` parses, are parameters.

## Model

| member | source | states |
|---|---|---|
| PromptModel.NewPrompt | ai-prompt-library@github.com/data/promptManager.js:196-214 | The new record has the given id, `isCustom` true, `usageCount` 0, no `lastUsed`, and creation and modification time `now`. A missing title becomes "Untitled Prompt", and a missing AI model or application becomes "Other". Description, content and tags are copied, and a missing one stays empty. |
| PromptModel.ApplyUpdate | ai-prompt-library@github.com/data/promptManager.js:218-228 | `Object.assign` then a new date: every field present in the update takes its value, every absent field keeps the old one, and `dateModified` is `now`. |
| PromptModel.NoChangesTouchesOnlyDate | ai-prompt-library@github.com/data/promptManager.js:222-224 | An empty update changes nothing but `dateModified`. |
| PromptModel.ApplyUpdateIdempotent | ai-prompt-library@github.com/data/promptManager.js:222-224 | Applying the same update twice at the same time is the same as applying it once. |
| PromptModel.MarkUsed | ai-prompt-library@github.com/data/promptManager.js:245-246 | The use count rises by exactly one, `lastUsed` becomes `now`, and no other field changes. |
| Library.Resolve | ai-prompt-library@github.com/data/promptManager.js:271-281 | The records of the listed ids that are stored, in the order of the list. An id with no record is dropped. |
| Library.ResolveFrom | ai-prompt-library@github.com/data/promptManager.js:271-281 | There are at most as many resolved records as ids, and each one is the stored record of an id in the list. |
| Library.ResolveCovers | ai-prompt-library@github.com/data/promptManager.js:271-281 | The record of every stored id in the list is among the resolved records. |
| Library.ResolveAligned | ai-prompt-library@github.com/data/promptManager.js:271-281 | When every id is stored, the result lines up with the ids, position by position. |
| Library.ResolveSnoc | ai-prompt-library@github.com/data/promptManager.js:271-281 | Resolving a list with one more id appends that id's record, if it is stored. |
| Library.ValuesOfStore | ai-prompt-library@github.com/data/promptManager.js:188-190 | `Array.from(this._prompts.values())` holds one entry per key, in insertion order, and exactly the stored records. |
| Library.DeleteKeysInOrder | ai-prompt-library@github.com/data/promptManager.js:230-234 | Deleting a key from the map and from the insertion order keeps the order listing every key once. |
| Library.UpdateKeyedById | ai-prompt-library@github.com/data/promptManager.js:218-228 | After an update, every record is still stored under its own id exactly when the update leaves `id` alone or sets it to the same value. |
| Library.MaxRecent | ai-prompt-library@github.com/data/promptManager.js:253 | A setting of 0 or no settings at all gives 10, so the limit is never 0. |
| Library.MovedFacts | ai-prompt-library@github.com/data/promptManager.js:249-250 | After the `filter` and `unshift`, the id comes first and occurs nowhere else. Every other entry was there before, and a list without duplicates stays without duplicates. |
| Library.PromoteRecent | ai-prompt-library@github.com/data/promptManager.js:248-257 | The new recents list only holds the id and old entries. The id occurs at most once, and no duplicates are introduced. It is a subsequence of the moved list. For a positive limit: the list is non-empty; the id is at index 0; the length is the smaller of the moved length and the limit; and the rest is the old list without the id, in order, cut to fit. |
| Library.PromoteTwice | ai-prompt-library@github.com/data/promptManager.js:241-259 | Marking the same id twice in a row leaves the recents list as marking it once does. |
| Library.UseAllFront | ai-prompt-library@github.com/data/promptManager.js:241-259 | After distinct ids are marked in turn, the list starts with them, most recent first, up to the limit, and is never longer than the limit. |
| Library.UseAllStep | ai-prompt-library@github.com/data/promptManager.js:248-257 | One more mark keeps the front of the list equal to the marked ids in reverse order. |
| Library.RecentCap | ai-prompt-library@github.com/data/promptManager.js:253-256 | After at least `maxRecent` distinct ids are marked, the list is exactly the last `maxRecent` of them, most recent first. |
| Library.Toggle | ai-prompt-library@github.com/data/promptManager.js:261-266 | The id is a favourite afterwards exactly when it was not one before, every other id keeps its status, and the set stays free of duplicates. |
| Library.ToggleTwice | ai-prompt-library@github.com/data/promptManager.js:261-269 | Toggling twice restores the same set of favourites, and the same sequence when the id was not a favourite. |
| Library.MergeAll | ai-prompt-library@github.com/data/promptManager.js:406-422 | Merging records never loses a stored key. |
| Library.MergeKeys | ai-prompt-library@github.com/data/promptManager.js:406-422 | After the merge, the keys are the old keys plus the incoming ids. |
| Library.ImportOne | ai-prompt-library@github.com/data/promptManager.js:407-421 | One pass of the `forEach`. A new id is stored, goes to the end of the key order and counts as imported. A stored id is replaced in place and counts as updated under `overwrite`, and is otherwise left alone and counts as skipped. |
| Library.MergeStep | ai-prompt-library@github.com/data/promptManager.js:407-421 | The merge of the remaining records is one record's merge followed by the merge of the rest. |
| Library.MergeKeysInOrder | ai-prompt-library@github.com/data/promptManager.js:412-420 | Inserted keys are appended to the insertion order, so the order keeps listing every key once. |
| Library.MergeCounts | ai-prompt-library@github.com/data/promptManager.js:402-431 | `imported + skipped + updated` grows by the number of incoming records. The order grows by the imported ids only and keeps its old prefix. Without "overwrite" nothing counts as updated. |
| Library.MergeCount | ai-prompt-library@github.com/data/promptManager.js:406-422 | The store grows by exactly the number of imported records. |
| Library.MergeKeyedById | ai-prompt-library@github.com/data/promptManager.js:411-419 | Records set under their own ids keep the store keyed by id. |
| Library.MergeProvenance | ai-prompt-library@github.com/data/promptManager.js:406-422 | Every record afterwards is either an incoming one or the record already stored under that key. Keys no incoming record names keep their record. |
| Library.MergeSkipKeepsExisting | ai-prompt-library@github.com/data/promptManager.js:410-418 | With any strategy other than "overwrite", every stored record is left unchanged. |
| Library.MergeOverwriteLastWins | ai-prompt-library@github.com/data/promptManager.js:411-414 | Under "overwrite", the last incoming record with a given id is the one stored. |
| Library.MergeSkipFirstWins | ai-prompt-library@github.com/data/promptManager.js:416-420 | Under "skip", the first incoming record with a new id is the one stored. |
| Library.MergeFresh | ai-prompt-library@github.com/data/promptManager.js:419-420 | New, distinct ids are all imported, and they are appended to the order in incoming order. |
| Library.SaveDocument | ai-prompt-library@github.com/data/promptManager.js:107-113 | The document `_savePrompts` writes, which `exportData` also builds at lines 324-330: the records in insertion order, the recents list and the favourites in their order. The version and date are left out. |
| Library.ParseLoaded | ai-prompt-library@github.com/data/promptManager.js:75-89 | The state loaded from a document lists its keys once each and is keyed by id. Its recents are those of the document (or none). Its favourites are exactly the document's, without duplicates. |
| Library.IdsOfValues | ai-prompt-library@github.com/data/promptManager.js:110 | The ids of the saved records are the insertion order. |
| Library.ReloadOrder | ai-prompt-library@github.com/data/promptManager.js:75-79 | Setting the saved records one by one rebuilds the insertion order. |
| Library.ReloadAt | ai-prompt-library@github.com/data/promptManager.js:75-79 | Each saved record is stored back under its key. |
| Library.ReloadKey | ai-prompt-library@github.com/data/promptManager.js:75-79 | Each key's record is stored back unchanged. |
| Library.ReloadKeys | ai-prompt-library@github.com/data/promptManager.js:75-79 | Reloading gives back exactly the saved keys. |
| Library.ReloadRecords | ai-prompt-library@github.com/data/promptManager.js:75-79 | Reloading gives back the same map. |
| Library.SaveThenLoad | ai-prompt-library@github.com/data/promptManager.js:103-122 | Loading what `_savePrompts` wrote gives back the same state: records, insertion order, recents and favourites. |
| Library.Seeded | ai-prompt-library@github.com/data/promptManager.js:91-101 | The state `_loadDefaultPrompts` builds on a new manager: the catalogue records set under their ids in catalogue order, with no recents and no favourites. |
| Library.SeededKeys | ai-prompt-library@github.com/data/promptManager.js:91-101 | The state seeded from the catalogue lists its keys once each, is keyed by id, and has no recents and no favourites. |
| Library.LoadDistinctOrder | ai-prompt-library@github.com/data/promptManager.js:94-98 | Setting records with distinct ids into an empty map orders the keys as the records. |
| Library.LoadDistinctCount | ai-prompt-library@github.com/data/promptManager.js:94-98 | Setting records with distinct ids into an empty map stores one record per input. |
| Library.SeededOrder | ai-prompt-library@github.com/data/promptManager.js:91-101 | The seeded state holds the seventeen catalogue ids, in catalogue order. |
| Library.SeededRecords | ai-prompt-library@github.com/data/promptManager.js:91-101 | Every seeded record is a built-in one that has never been used. |
| Library.InsertSorted | ai-prompt-library@github.com/data/promptManager.js:445-451 | Adding to a `Set` that is read back sorted: the list stays strictly sorted and gains exactly the new element. |
| Library.SortedSet | ai-prompt-library@github.com/data/promptManager.js:441-454 | `Array.from(new Set(xs)).sort()` is strictly sorted and holds exactly the elements of `xs`. |
| Library.StrictlySortedUnique | ai-prompt-library@github.com/data/promptManager.js:450-451 | Two strictly sorted lists with the same elements are equal. |
| Library.SortedTail | ai-prompt-library@github.com/data/promptManager.js:450-451 | The tail of a strictly sorted list is strictly sorted and lacks the head. |
| Library.GetCategories | ai-prompt-library@github.com/data/promptManager.js:441-454 | Both lists are strictly sorted. A model (or an application) is listed exactly when some record has it. |
| Library.CategoriesIgnoreOrder | ai-prompt-library@github.com/data/promptManager.js:441-454 | The categories depend only on which records there are, not on their order. |
| Library.GetStatistics | ai-prompt-library@github.com/data/promptManager.js:456-472 | Total, favourite and recent counts are the sizes of the three structures. `custom` counts the custom records, and `default` is total minus custom. `mostUsed` is the first five of the records ranked by usage. |
| Library.StatisticsCounts | ai-prompt-library@github.com/data/promptManager.js:458-467 | `default` equals the number of built-in records. |
| Library.MostUsedShape | ai-prompt-library@github.com/data/promptManager.js:460-462 | `mostUsed` is ranked by usage, holds five records (or every record when there are fewer), and holds only stored records. As a multiset it is contained in the stored records, so no record is listed more often than it is stored. |
| Library.MostUsedRest | ai-prompt-library@github.com/data/promptManager.js:460-462 | No record left out of `mostUsed` has been used more often than the last one listed. |
| Library.MostUsedTop | ai-prompt-library@github.com/data/promptManager.js:460-462 | The same, for one given record. |
| Search.Matches | ai-prompt-library@github.com/data/promptManager.js:289-306 | A record is pushed when it passes the four filters and, for a non-empty query, its lowered title, description, content and tags, joined by spaces, contain the lowered query. |
| Search.LowerJoinContains | ai-prompt-library@github.com/data/promptManager.js:295-303 | A query found in one lowered field is found in the lowered, space-joined search text. |
| Search.FieldHitMatches | ai-prompt-library@github.com/data/promptManager.js:287-306 | A record that passes the filters and contains the query in its title, description, content or one of its tags is found. |
| Search.FilterFailureExcludes | ai-prompt-library@github.com/data/promptManager.js:289-292 | A record that fails any one of the filters is never returned. |
| Search.EmptySearchFindsAll | ai-prompt-library@github.com/data/promptManager.js:283-306 | An empty query with no filters admits every record. |
| Search.EmptyTagFilterExcludes | ai-prompt-library@github.com/data/promptManager.js:292 | An empty tag list as a filter admits no record, since it needs at least one shared tag. |
| Search.Found | ai-prompt-library@github.com/data/promptManager.js:287-307 | The collected results are exactly the records that pass every filter and contain the query. |
| Search.FoundStep | ai-prompt-library@github.com/data/promptManager.js:287-307 | Scanning one more record appends it exactly when it matches. |
| Search.InsertByUsage | ai-prompt-library@github.com/data/promptManager.js:310-318 | The record goes before the first record used no more than it. Inserting into a list ranked by usage keeps it ranked, and adds exactly that record. |
| Search.SortByUsage | ai-prompt-library@github.com/data/promptManager.js:310-318 | The ranking is ordered by non-increasing `usageCount` and is a permutation of its input. |
| Search.RankingFront | ai-prompt-library@github.com/data/promptManager.js:460-462 | A record outside the first `k` of the ranking has been used no more often than the `k`-th. |
| Search.RankingPrefix | ai-prompt-library@github.com/data/promptManager.js:460-462 | A record cut off by `slice(0, n)` has been used no more often than the last one kept. |
| Search.RankingPrefixShape | ai-prompt-library@github.com/data/promptManager.js:460-462 | `slice(0, n)` of the ranking is still ranked, holds `min(n, length)` records, and as a multiset is contained in the input. |
| CsvExport.DoubleQuotesNone | ai-prompt-library@github.com/data/promptManager.js:350-351 | `replace(/"/g, '""')` leaves text without quotes unchanged. |
| CsvExport.CsvRowAsWritten | ai-prompt-library@github.com/data/promptManager.js:349-357 | The row the source writes: six quoted values joined by commas, with quotes doubled in the title, description and content only. |
| CsvExport.CsvRowsAsWritten | ai-prompt-library@github.com/data/promptManager.js:348-357 | One row per record, in order, each one written as the source writes it. |
| CsvExport.ExportAsCsv | ai-prompt-library@github.com/data/promptManager.js:344-361 | The loop builds the export as written: the header line, then the source's row for each record in order, joined by newlines. |
| CsvExport.Csv | ai-prompt-library@github.com/data/promptManager.js:344-361 | The corrected export: the header, then one row per record with every value quoted and its quotes doubled, lines joined by "\n". |
| CsvExport.ReadQuotedDoubled | ai-prompt-library@github.com/data/promptManager.js:350-351 | A doubled-quote value followed by its closing quote reads back as the value. |
| CsvExport.ReadRecordOf | ai-prompt-library@github.com/data/promptManager.js:349-356 | A row of quoted fields reads back as its fields. |
| CsvExport.ReadRecordsOf | ai-prompt-library@github.com/data/promptManager.js:346-360 | Rows joined by newlines read back as the table. |
| CsvExport.CsvRoundTrip | ai-prompt-library@github.com/data/promptManager.js:344-361 | For the corrected export: with no records it is the header alone. Otherwise it is the header and the rows, and the rows read back as each record's six values. |
| CsvExport.CsvRowInjective | ai-prompt-library@github.com/data/promptManager.js:349-356 | Two records with the same corrected row have the same six exported values. |
| CsvExport.CsvRowAsWrittenAgrees | ai-prompt-library@github.com/data/promptManager.js:349-356 | Without quotes in the AI model, the application and the tags, the row as written equals the fully escaped one. |
| CsvExport.CsvRowAsWrittenAmbiguous | ai-prompt-library@github.com/data/promptManager.js:352-354 | As written, two records with different AI models and applications give the same row. |
| CsvExport.CsvAsWrittenAgrees | ai-prompt-library@github.com/data/promptManager.js:344-361 | When no record has a quote in its AI model, application or tags, the export as written equals the corrected one. |
| CsvExport.CsvAsWrittenAmbiguous | ai-prompt-library@github.com/data/promptManager.js:344-361 | As written, the one-record exports of two records with different values are the same text. |
| MarkdownExport.OfModelSnoc | ai-prompt-library@github.com/data/promptManager.js:368-375 | Grouping a list with one more record extends only that record's group. |
| MarkdownExport.OfModelMembers | ai-prompt-library@github.com/data/promptManager.js:368-375 | A model's group holds exactly the records of that model, in their order. |
| MarkdownExport.OfModelIsFilter | ai-prompt-library@github.com/data/promptManager.js:368-375 | A model's group is the list filtered by that model. |
| MarkdownExport.OfModelAbsent | ai-prompt-library@github.com/data/promptManager.js:368-375 | A model no record has has an empty group. |
| MarkdownExport.OfModelAll | ai-prompt-library@github.com/data/promptManager.js:368-375 | When every record has the model, its group is the whole list. |
| MarkdownExport.ModelOrderFacts | ai-prompt-library@github.com/data/promptManager.js:368-375 | The section order lists each model once: every model of a record and no other. |
| MarkdownExport.ModelOrderSnoc | ai-prompt-library@github.com/data/promptManager.js:369-373 | A record with a new model opens a section after the existing ones. |
| MarkdownExport.GroupedSnocUnlisted | ai-prompt-library@github.com/data/promptManager.js:368-375 | A record of an unlisted model adds nothing to the listed sections. |
| MarkdownExport.GroupedSnocListed | ai-prompt-library@github.com/data/promptManager.js:368-375 | A record of a listed model adds exactly that record to the sections. |
| MarkdownExport.GroupedSnocLast | ai-prompt-library@github.com/data/promptManager.js:368-375 | A record of the last model listed goes at the end of the sections. |
| MarkdownExport.GroupedSnocEarlier | ai-prompt-library@github.com/data/promptManager.js:368-375 | A record of a listed model other than the last adds exactly that record to the sections. |
| MarkdownExport.GroupedNewModel | ai-prompt-library@github.com/data/promptManager.js:368-375 | A record of a new model, listed last, is appended after everything else. |
| MarkdownExport.GroupedIsPermutation | ai-prompt-library@github.com/data/promptManager.js:368-394 | The sections together list every record exactly once. |
| MarkdownExport.GroupJoin | ai-prompt-library@github.com/data/promptManager.js:370-374 | Appending a record to its model's existing group keeps the groups equal to the per-model filters. |
| MarkdownExport.GroupOpen | ai-prompt-library@github.com/data/promptManager.js:370-374 | Opening a group for a new model keeps the groups equal to the per-model filters, and the model is listed last. |
| MarkdownExport.GroupStep | ai-prompt-library@github.com/data/promptManager.js:369-374 | One pass of the grouping `forEach` keeps the groups equal to the per-model filters. |
| MarkdownExport.GroupOne | ai-prompt-library@github.com/data/promptManager.js:369-374 | The method form of one grouping pass keeps the same invariant. |
| MarkdownExport.GroupOrFail | ai-prompt-library@github.com/data/promptManager.js:369-375 | One pass fails exactly when the record's model is an inherited property name. Otherwise the record joins its group, and the groups stay equal to the per-model filters. |
| MarkdownExport.GroupingFailsSnoc | ai-prompt-library@github.com/data/promptManager.js:369-375 | With one more record, the grouping throws exactly when it already threw or that record's model is an inherited property name. |
| MarkdownExport.GroupByModel | ai-prompt-library@github.com/data/promptManager.js:368-375 | The loop fails exactly when some record's AI model is the name of a property inherited from `Object.prototype`, such as "constructor" or "__proto__". Otherwise the groups are keyed by exactly the models of the records, in order of first appearance, and each group is that model's records, in order. |
| MarkdownExport.AppendBlock | ai-prompt-library@github.com/data/promptManager.js:380-393 | Appends one record's block: title, optional description, application, optional tags, content in a code fence, and the rule. |
| MarkdownExport.SectionStep | ai-prompt-library@github.com/data/promptManager.js:377-394 | One more section is its heading followed by its group's blocks. |
| MarkdownExport.BlockStep | ai-prompt-library@github.com/data/promptManager.js:379-393 | One more block extends the section by that record's block. |
| MarkdownExport.AppendSection | ai-prompt-library@github.com/data/promptManager.js:377-394 | A section is the model's heading followed by the block of each record of its group. |
| MarkdownExport.Markdown | ai-prompt-library@github.com/data/promptManager.js:363-397 | The Markdown text: the title and date lines, then a section for each AI model in order of first appearance, each holding the blocks of that model's records in order. |
| MarkdownExport.ExportAsMarkdown | ai-prompt-library@github.com/data/promptManager.js:363-397 | If a record's AI model is an inherited property name, the result is the `TypeError` of `.push`. Otherwise the export is the header, then one section per model in order of first appearance. |
| MarkdownExport.MarkdownOneModel | ai-prompt-library@github.com/data/promptManager.js:363-397 | When all records share one model, the export is the header, one heading, and every block in order. |
| MarkdownExport.ModelOrderSingle | ai-prompt-library@github.com/data/promptManager.js:368-375 | When all records share one model, that model is the only section. |
| DefaultPrompts.SeedIdsDistinct | ai-prompt-library@github.com/data/defaultPrompts.js:3-272 | The seventeen catalogue ids are pairwise distinct. |
| DefaultPrompts.GetAll | ai-prompt-library@github.com/data/defaultPrompts.js:2-273 | There are seventeen built-in records. None is custom, none has been used, and all were created and modified `now`. Their ids are the catalogue ids, which are distinct. |
| DefaultPrompts.GetByCategory | ai-prompt-library@github.com/data/defaultPrompts.js:275-280 | Every result is a catalogue record with the given AI model and application, where given. No such record is dropped, and catalogue order is kept. |
| DefaultPrompts.GetByAIModel | ai-prompt-library@github.com/data/defaultPrompts.js:282-284 | The results are exactly the catalogue records of that AI model, in catalogue order. |
| DefaultPrompts.GetByApplication | ai-prompt-library@github.com/data/defaultPrompts.js:286-288 | The results are exactly the catalogue records of that application, in catalogue order. |
| DefaultPrompts.GetByCategoryUnfiltered | ai-prompt-library@github.com/data/defaultPrompts.js:275-280 | With neither argument given, the result is the whole catalogue. |
| DefaultPrompts.GetByAIModelIsCategory | ai-prompt-library@github.com/data/defaultPrompts.js:275-284 | For a non-empty model, `getByAIModel(m)` equals `getByCategory(m, null)`. |
| DefaultPrompts.GetByApplicationIsCategory | ai-prompt-library@github.com/data/defaultPrompts.js:275-288 | For a non-empty application, `getByApplication(a)` equals `getByCategory(null, a)`. |
| Manager.CollectMatches | ai-prompt-library@github.com/data/promptManager.js:284-307 | The `for ... of` loop collects exactly the matching records, in store order. |
| Manager.PromptManager.constructor | ai-prompt-library@github.com/data/promptManager.js:7-18 | With a readable document, the state is the one `_parseLoadedData` builds and nothing is written. Otherwise, the state is the catalogue seeded into empty structures, and it is written out. |
| Manager.PromptManager.SavePrompts | ai-prompt-library@github.com/data/promptManager.js:103-122 | The saved document is the records in insertion order, the recents and the favourites. Nothing else changes. |
| Manager.PromptManager.MergeRecords | ai-prompt-library@github.com/data/promptManager.js:406-422 | The loop merges the records one by one, exactly as `MergeAll` does, with the same counts. Recents, favourites and the file are untouched. |
| Manager.PromptManager.ParseLoadedData | ai-prompt-library@github.com/data/promptManager.js:75-89 | The stored records are set in order. Recents are replaced when present, and favourites are replaced, deduplicated, when present. |
| Manager.PromptManager.LoadDefaultPrompts | ai-prompt-library@github.com/data/promptManager.js:91-101 | The catalogue records are set in order, and the state is written out. |
| Manager.PromptManager.GetAllPrompts | ai-prompt-library@github.com/data/promptManager.js:188-190 | Every stored record once, in insertion order. |
| Manager.PromptManager.GetPrompt | ai-prompt-library@github.com/data/promptManager.js:192-194 | The record stored under the id, and nothing when it is absent. |
| Manager.PromptManager.AddPrompt | ai-prompt-library@github.com/data/promptManager.js:196-216 | The new record is stored under its id, and no other record changes. A new id goes last in insertion order. Recents and favourites are untouched, the state is written out, and the record is returned. |
| Manager.PromptManager.UpdatePrompt | ai-prompt-library@github.com/data/promptManager.js:218-228 | An unknown id gives `null` and changes nothing. A known id gets the updated record under the same key, returned. Nothing else changes, and the state is written out. |
| Manager.PromptManager.DeletePrompt | ai-prompt-library@github.com/data/promptManager.js:230-239 | The method returns whether the id was stored. If it was, the id is in none of the records, order, favourites and recents, the other entries keep their order, and the state is written out. Otherwise nothing changes. |
| Manager.PromptManager.MarkAsUsed | ai-prompt-library@github.com/data/promptManager.js:241-259 | An unknown id changes nothing. Otherwise the record is used once more, the recents list is promoted as `PromoteRecent` says, and the state is written out. |
| Manager.PromptManager.ToggleFavorite | ai-prompt-library@github.com/data/promptManager.js:261-269 | The favourite mark is flipped and the new mark is returned. Records and recents are untouched, and the state is written out. |
| Manager.PromptManager.GetRecentPrompts | ai-prompt-library@github.com/data/promptManager.js:271-275 | No more records than recent ids, each one stored; every stored recent id's record is listed. When every recent id is stored, the records line up with the ids, most recent first. |
| Manager.PromptManager.GetFavoritePrompts | ai-prompt-library@github.com/data/promptManager.js:277-281 | No more records than favourites, each one stored; every stored favourite's record is listed. When every favourite is stored, the records line up with the favourites, in the order they were marked. |
| Manager.PromptManager.SearchPrompts | ai-prompt-library@github.com/data/promptManager.js:283-321 | The results are ranked by non-increasing use count. They are a permutation of the matching records, and a record is returned exactly when it is stored and matches. |
| Manager.PromptManager.ExportData | ai-prompt-library@github.com/data/promptManager.js:323-342 | "json" gives the saved document, which loads back as the present state. "csv" gives the CSV export as written. "markdown" gives the Markdown export, or its `TypeError` when a record's AI model is an inherited property name. Any other format is the error "Unsupported export format: " followed by the format. |
| Manager.PromptManager.ImportData | ai-prompt-library@github.com/data/promptManager.js:399-435 | A parse failure gives "Failed to import data: " followed by the message, and nothing changes. Otherwise the incoming records are merged by id, and only "overwrite" replaces stored records. Recents and favourites are untouched and the state is written out. The three counts add up to a `total` equal to the number of incoming records. |
| Manager.PromptManager.GetCategories | ai-prompt-library@github.com/data/promptManager.js:441-454 | The sorted, distinct AI models and applications of the stored records. |
| Manager.PromptManager.GetStatistics | ai-prompt-library@github.com/data/promptManager.js:456-472 | The sizes of the three structures, plus the custom and built-in counts. `mostUsed` holds five records (or all records when there are fewer), ranked by usage, contained in the stored records as a multiset, with no left-out record used more often. |
| Manager.PromptManager.Destroy | ai-prompt-library@github.com/data/promptManager.js:474-483 | The state is written out once more, then every structure is cleared. |
| Clipboard.DropSpaces | utils/clipboard.js:123 | Leading whitespace is removed: the result is a suffix of the input and does not start with whitespace. |
| Clipboard.TrimEnd | utils/clipboard.js:123 | Trailing whitespace is removed: the result is a prefix of the input and does not end with whitespace. |
| Clipboard.Collapse | utils/clipboard.js:123 | `replace(/\s+/g, ' ')`: each maximal run of ECMAScript whitespace becomes one space. |
| Clipboard.Clean | utils/clipboard.js:123 | The collapsed text with leading and trailing whitespace trimmed. |
| Clipboard.CollapseSingleSpaced | utils/clipboard.js:123 | After `replace(/\s+/g, ' ')`, no two whitespace characters are adjacent, and each remaining one is a plain space. |
| Clipboard.TrimmedIsClean | utils/clipboard.js:123 | Trimming single-spaced text leaves no leading or trailing whitespace. |
| Clipboard.CleanIsClean | utils/clipboard.js:123 | The cleaned text has no leading or trailing whitespace and no two adjacent whitespace characters. |
| Clipboard.CollapseSingleSpacedSelf | utils/clipboard.js:123 | Collapsing text that is already single-spaced changes nothing. |
| Clipboard.CleanSelf | utils/clipboard.js:123 | Cleaning clean text changes nothing. |
| Clipboard.CleanIdempotent | utils/clipboard.js:123 | Cleaning twice is cleaning once. |
| Clipboard.CleanKeepsText | utils/clipboard.js:123 | Cleaning keeps every non-whitespace character, in order. |
| Clipboard.ContentPreview | utils/clipboard.js:119-132 | The preview is at most 80 characters long (so '' for empty content). Cleaned text of at most 80 characters is returned unchanged. Longer text gives its first 77 characters followed by "...". |
| Clipboard.PreviewIsClean | utils/clipboard.js:119-132 | The preview has no leading or trailing whitespace and no two adjacent whitespace characters. |
| Clipboard.PreviewIdempotent | utils/clipboard.js:119-132 | The preview of a preview is the preview. |
| Clipboard.EscapeRegExp | utils/clipboard.js:156-158 | A backslash goes before each of the fourteen regular-expression special characters. The result is at least as long as the input and at most twice as long, and it holds only the input's characters and backslashes. |
| Clipboard.EscapeRoundTrip | utils/clipboard.js:156-158 | The escaped text is a pattern of literal characters only, and it spells out the original text exactly. |
| Clipboard.EscapeLength | utils/clipboard.js:156-158 | The escaped text is longer by exactly the number of special characters in the input, the fourteen characters `_escapeRegExp` escapes. |
| Clipboard.TemplateEntriesAsWritten | utils/clipboard.js:139-146 | The `templateVars` object as the source builds it: the five placeholders, each mapped to its short-name variable or to itself, then every property of `variables` spread on top, short names included. |
| Clipboard.ProcessTemplateVariablesAsWritten | utils/clipboard.js:135-154 | Every key of that object, in its order, is replaced everywhere in the content by its value. |
| Clipboard.ProcessTemplateVariables | utils/clipboard.js:135-154 | The loop replaces each placeholder of the template object, as the source builds it, in turn, everywhere in the content. |
| Clipboard.TemplateEntries | utils/clipboard.js:139-146 | The corrected template object: the five placeholders, then only the caller's variables that are not short names. |
| Clipboard.TemplateText | utils/clipboard.js:135-154 | The corrected replacement: the same ordered literal replacement over the corrected template object. |
| Clipboard.AssignKeys | utils/clipboard.js:139-146 | Assigning a property keeps the keys in place, and a new key is added at the end. |
| Clipboard.SpreadKeys | utils/clipboard.js:139-146 | An object spread keeps the existing keys first, in place, and adds no duplicates. |
| Clipboard.TemplateKeys | utils/clipboard.js:139-146 | The template object lists its keys once each, and starts with the five placeholders in order. |
| Clipboard.ReplaceEachSelf | utils/clipboard.js:149-151 | Replacing each placeholder by itself changes nothing. |
| Clipboard.NoVariablesUnchanged | utils/clipboard.js:135-154 | With no variables, each default placeholder maps to itself and the content comes back unchanged. |
| Clipboard.WithoutShorthandsAgree | utils/clipboard.js:139-146 | Variables that use none of the five short names give the same text as written and as corrected. |
| Clipboard.CodeFillsItsPlaceholder | utils/clipboard.js:139-151 | With the correction, a `code` variable fills the code placeholder and nothing else, and an empty value leaves the placeholder in place. |
| Clipboard.ReplaceEachAfter | utils/clipboard.js:149-151 | Placeholders that map to themselves add nothing after the others are replaced. |
| Clipboard.ShorthandReplacedAsWritten | utils/clipboard.js:139-146 | As written, the content "code" with `{code: "x"}` becomes "x". With the correction it stays "code". |
| Clipboard.FormatForClaude | utils/clipboard.js:179-185 | The result contains "Please" or "Help". It is the content after "Please help me with the following:\n\n", or the content unchanged, and it is unchanged exactly when the content contains "Please" or "Help". |
| Clipboard.FormatForAIModel | utils/clipboard.js:161-190 | Every model name other than "claude", ignoring case, returns the content unchanged. "claude" adds the preamble as `_formatForClaude` does. |
| Clipboard.FormatForClaudeIdempotent | utils/clipboard.js:179-185 | Formatting for Claude twice is formatting once. |
| Clipboard.FormatIgnoresCase | utils/clipboard.js:161-172 | Model names that are equal when lowered format alike. |
| Strings.ReplaceAllSelf | utils/clipboard.js:149-151 | Replacing a placeholder by itself changes nothing. |
| Strings.ReplaceAllAbsent | utils/clipboard.js:149-151 | Replacing a placeholder that does not occur changes nothing. |
| Strings.LowerIdempotent | utils/clipboard.js:162 | Lowering twice is lowering once. |
| Strings.JoinContainsParts | ai-prompt-library@github.com/data/promptManager.js:296-301 | Each part of a join occurs in the joined text. |

## Left out

- File handling: creating the data and backup directories, reading `prompts.json`, writing it,
  copying backups and cleaning old ones. The file is the field `saved`; reading it is the
  constructor's `loaded` parameter.
- JSON text: `JSON.stringify` and `JSON.parse` are not modelled. The document is the value
  `Document`, which has no `version` or `exportDate` field. When `importData` cannot parse its
  input, that is an `Err` argument. A document that `_loadPrompts` cannot read is `None`, and the
  constructor then seeds the catalogue.
- `_generateId`: it reads the clock and a random number, so the id is a parameter of `AddPrompt`.
- The clock: every `new Date().toISOString()` is the integer parameter `now`. Where the source
  reads the clock twice in one call, the model uses one instant.
- The date line of the Markdown export: `toLocaleDateString()` is the parameter `dateText`.
- The settings object: `MaxRecent` takes `get_int('max-recent-prompts')` as an `Option<int>`,
  with `None` for missing settings.
- Manager.PromptManager.SearchPrompts: the ties on `usageCount` are not ordered. The source breaks
  them by `lastUsed`, then by `dateCreated`; that comparator is not a consistent order. Take
  three records with the same count: A used at 5 and created at 1, B used at 1 and created at 3,
  and C never used and created at 2. Then A comes before B, B before C, and C before A. The model ranks by use count only, keeping store order among ties.
- Library.GetStatistics: the engine's sort is taken as a stable sort by use count. Only the
  usage order of `mostUsed` is stated; which of several records with equal counts are kept is not.
- A record without an `id`, or any other malformed incoming value, is not modelled. Such a value
  makes the source throw midway through an import and leave the records merged so far. Strings are
  never `null` in the model.
- `updatePrompt` returns the stored object itself, so a caller changing the result changes the
  store. This aliasing is left out: records are values.
- A JavaScript `Map` or object enumerates integer-like keys first, and `__proto__` is special in
  an object literal. The model keeps plain insertion order for every key.
- Lengths are counted in characters, not UTF-16 code units.
- The `sort()` of `getCategories` compares UTF-16 code units. `Strings.StrLess` compares code
  points. The two orders differ only when a character above U+FFFF meets one from U+E000 to
  U+FFFF.
- The message of the `TypeError` that `_exportAsMarkdown` throws is engine-specific. The model
  uses the constant `MarkdownExport.PushFailure`.
- `toLowerCase` is modelled on ASCII letters only. This is exact for the model names that
  `formatForAIModel` compares, and approximate for search queries in other scripts.
- Regular expressions: `new RegExp(escaped, 'g')` is modelled as a literal global replacement.
  `Clipboard.EscapeRoundTrip` shows the escaped pattern is a literal. The `$&` and `$n` patterns in
  a replacement value are not modelled, and every variable value is a string.
- `this._extension = null` in `destroy` is not modelled: the extension is not part of the state.
- The clipboard, notifications and the `St`/`Gtk` user interface are left out, as are the
  `copyText`, `copyWithVariables` and `copyFormatted` helpers that compose the modelled functions
  with them. So are the keybindings, the panel indicator and the preferences window.
- `filters.isCustom` set to `null` (as opposed to absent) filters for `null` in the source. The
  model's filter is a `bool` or nothing.

## Findings

| source | as written | input that shows it | evidently intended | confidence | as-written member | corrected member |
|---|---|---|---|---|---|---|
| utils/clipboard.js:139-146 | `...variables` spreads the caller's variables into the template object. The short names `code`, `topic`, `text`, `audience` and `language` therefore become placeholders too, and every occurrence of the bare word is replaced. | content "code" with variables `{code: "x"}` gives "x" | The short names fill only the five bracketed placeholders; any other key of `variables` is a placeholder of its own. The content "code" stays "code". | not executed; proved on the model | Clipboard.ProcessTemplateVariables, Clipboard.ShorthandReplacedAsWritten | Clipboard.TemplateText, Clipboard.CodeFillsItsPlaceholder, Clipboard.WithoutShorthandsAgree |
| ai-prompt-library@github.com/data/promptManager.js:352-354 | The AI model, the application and the joined tags are put between double quotes, but the quotes inside them are not doubled, unlike title, description and content. | two records alike except AI model `x","y` with application `z`, against AI model `x` with application `y","z`, give the same row | Every value has its quotes doubled, so that each row reads back as its six values. | not executed; proved on the model | CsvExport.ExportAsCsv, CsvExport.CsvRowAsWrittenAmbiguous, CsvExport.CsvAsWrittenAmbiguous | CsvExport.Csv, CsvExport.CsvRoundTrip, CsvExport.CsvRowInjective, CsvExport.CsvAsWrittenAgrees |
