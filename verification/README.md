# Translation handling demo data, modelled in Dafny

The TYPO3 extension `translation_handling` builds and removes demo page
trees for testing TYPO3's language fallback behaviour. There is one tree per
scenario type: `fallback`, `strict` or `free`.

A scenario consists of:

- an entry page with the `_root` marker;
- a records storage folder;
- three subpages, one per backend translation mode (`free`, `connected`,
  `mixed`);
- generic content on every page;
- a site configuration with a default language and one fallback language;
- a demo image in the FAL folder `translation_handling`.

Every content element is localized into the site's languages, according to
the translation mode of its page.

This project models the extension's own rules as pure Dafny functions and
small methods over an abstract host:

- **The host CMS.** This is a `Host.Store`:
  - page and content rows in `sorting` order, each with uid, pid, marker and
    a deleted flag;
  - the site configurations;
  - the file storage;
  - a counter for `StringUtility::getUniqueId` placeholders;
  - a run counter for the record-mutation engine (DataHandler);
  - one ordered trace of every effect: engine runs, site writes and renames,
    folder and file changes, and console messages.
- **Everything the code cannot decide itself.** This comes from a
  `Host.Env` oracle:
  - the substitution of NEW placeholders by uids;
  - which engine runs report errors;
  - whether site rename, write or delete fail;
  - whether the table schema is usable;
  - whether the file folder can be written or deleted.
- **Exceptions.** An operation returns `Exec(store, thrown)`:
  - `Code(n)` is an exception the code throws with code `n`;
  - `TypeError` is PHP's strict-types error when a NEW placeholder string
    reaches an `int` parameter;
  - `Uncaught(kind)` is a host exception the code lets through.

The two generations of the code are modelled side by side, each as written:

- the older monolithic `Generator` (modules `Generator` and `Commands`);
- the event-listener pipeline (modules `Scenario`, `PageCreation`,
  `SiteConfigurationCreation`, `ContentCreation` and `Localization`).

They share the record lookups (`RecordFinder`), the file handling
(`FileHandler`) and the text helpers (`Kauderwelsch`).

Files:

| file | contents |
|---|---|
| `wrappers.dfy` | `Option`, `Result` and the error kinds |
| `php.dfy` | the PHP value model and the string helpers the code relies on |
| `markers.dfy` | the marker strings and error codes |
| `sorting.dfy` | `sort()` |
| `host.dfy` | the abstract store and the record-mutation engine |
| `page_tree.dfy` | the page-tree array |
| `record_finder.dfy` | `RecordFinder` |
| `file_handler.dfy` | `FileHandler` |
| `site_configuration.dfy` | the site configuration listener |
| `localization.dfy` | the localization listener |
| `content_creation.dfy` | the content listener |
| `page_creation.dfy` | the page listener |
| `scenario.dfy` | the create and delete listeners |
| `kauderwelsch.dfy` | lorem ipsum and the intro text |
| `generator.dfy` | `Generator` |
| `commands.dfy` | the two console commands |

Where the system's overview description and the code disagree, the model
follows the code:

- demo files are added **before** the page tree is created, not after the
  content;
- deletion removes the site configuration **first**, then the records, then
  the file folder.

## Model

| member | source | states |
|---|---|---|
| Php.CoalesceNullLikeMissing | Classes/EventListener/LocalizationListener.php:54-55 | `??` treats a key holding null exactly like a missing key, and a non-null value wins over any default |
| Php.LTrim | Classes/Generator/FileHandler.php:116 | `ltrim` removes only a run of the given character from the front; what remains does not start with it |
| Php.UpperNormalizes | Classes/EventListener/PageCreationListener.php:44 | `strtoupper` leaves no lower-case ASCII letter, is idempotent, and changes a string exactly when it holds a lower-case letter |
| Php.UcFirstAgreesWithUpper | Classes/EventListener/PageCreationListener.php:72 | `ucfirst` is idempotent, agrees with `strtoupper` on the first character, and upper-casing its result gives the same as upper-casing the input |
| Php.ParseNatToString | Classes/Generator/Generator.php:238 | an id written into a fallback list by string concatenation reads back as the same id |
| Php.NatToStringInjective | Classes/EventListener/SiteConfigurationCreationListener.php:50 | distinct page uids give distinct decimal strings, so site identifiers built from them differ |
| Php.SplitCommaJoin | Classes/Generator/Generator.php:238 | a comma-joined fallback list splits back into its parts |
| Php.ParseIdListSingle | Classes/Generator/Generator.php:270 | a single-id fallback list parses to exactly that id |
| Php.ParseIdListPair | Classes/Generator/Generator.php:238 | a two-id fallback list parses to the two ids in order |
| Markers.Identifier | Classes/Generator/RecordFinder.php:48 | the scenario marker is the extension prefix followed by exactly the type, so the type can be read back from the marker |
| Markers.RootMarker | Classes/EventListener/PageCreationListener.php:57 | the entry page marker carries the prefix and is five characters longer than the type plus the prefix |
| Markers.StorageMarker | Classes/EventListener/PageCreationListener.php:65 | the storage marker carries the prefix and is eight characters longer than the type plus the prefix |
| Markers.MarkersDistinct | Classes/EventListener/DeleteTranslationHandlingScenarioListener.php:56-60 | the root, storage and plain markers of one type are pairwise different, so each selects its own pages |
| Markers.ScenarioMarkersDistinct | Classes/Command/GeneratorCommand.php:96-107 | no marker of one scenario type equals any marker of another, so the trees of `all` never select each other's pages |
| Markers.MarkerAsIdentifier | Classes/EventListener/PageCreationListener.php:57-65 | the root and storage markers are the plain marker of the type with `_root` or `_storage` appended |
| Sorting.SortBy | Classes/Generator/RecordFinder.php:118-121 | `sort()` returns an ascending permutation of its input |
| Sorting.SortByMembership | Classes/Generator/RecordFinder.php:118-121 | sorting neither adds nor loses a value |
| PageTree.Put | Classes/EventListener/PageCreationListener.php:121-124 | array assignment replaces the entry of an existing key in place and appends a new key at the end |
| PageTree.PutKeepsKeysUnique | Classes/EventListener/PageCreationListener.php:121-124 | assigning into the page-tree array keeps its keys unique |
| PageTree.LookupAfterPut | Classes/EventListener/ContentCreationListener.php:52 | reading a key right after assigning it returns the assigned entry |
| PageTree.FirstSlotFound | Classes/EventListener/ContentCreationListener.php:52 | a key whose slots all hold one entry is read back as that entry |
| Host.SubstitutedInjective | Classes/EventListener/PageCreationListener.php:120-121 | with fresh uids, two different placeholders never resolve to the same value |
| Host.SiteByRootPage | Classes/EventListener/SiteConfigurationCreationListener.php:52 | the site finder returns a site whose root page is the given uid, or reports that no site has it |
| Host.RenameSiteRoundTrip | Classes/EventListener/SiteConfigurationCreationListener.php:53 | renaming to an unused name is undone by renaming back; afterwards no site keeps the old name, and every configuration stays at its position |
| Host.WriteSite | Classes/EventListener/SiteConfigurationCreationListener.php:103 | after a write the identifier holds exactly the new configuration and every other site is kept |
| Host.RemoveSite | Classes/EventListener/DeleteTranslationHandlingScenarioListener.php:77 | deleting an identifier removes exactly the sites with that identifier |
| Host.ResolvePid | Classes/EventListener/PageCreationListener.php:55 | a pid resolves to a real page or the top level unless it is an unsubstituted placeholder |
| Host.ApplyDeletes | Classes/EventListener/DeleteTranslationHandlingScenarioListener.php:55 | a delete command marks its page deleted and leaves every other page row as it was |
| Host.Process | Classes/Utility/DataHandlerService.php:33-44 | empty maps leave the store alone; otherwise one engine run processes the data map before the command map and appends its new pages |
| Host.ExecuteThrowsAfterEffects | Classes/Utility/DataHandlerService.php:31-52 | a non-empty call throws 1757323932 exactly when its run has an error log, and in both cases the run is counted and its entries stay in the trace |
| Host.ExecuteDataOk | Classes/Utility/DataHandlerService.php:43-50 | a data-only run without errors records exactly that data run and does not throw |
| RecordFinder.ValidMarkers | Classes/Generator/RecordFinder.php:103-109 | only markers with the extension prefix become a query condition |
| RecordFinder.FindUidsOfPages | Classes/Generator/RecordFinder.php:97-124 | returns, sorted ascending, the uids of exactly the live pages with a valid marker; no valid marker selects every live page; a database error gives `[]` |
| RecordFinder.LivePageFound | Classes/Generator/RecordFinder.php:97-124 | a live page carrying a prefixed marker is found by a lookup for that marker |
| RecordFinder.NoValidMarkerSelectsAllLivePages | Classes/Generator/RecordFinder.php:101-109 | when no marker has the prefix, no marker condition is added and every live page is returned |
| RecordFinder.FindHighestLanguageId | Classes/Generator/RecordFinder.php:129-140 | the result is at least 0, at least every language id of every site, and is 0 or one of those ids |
| RecordFinder.PositiveIdsAppend | Classes/Generator/RecordFinder.php:154-158 | filtering ids above 0 keeps the site's language order |
| RecordFinder.FindLanguageIdsByRootPage | Classes/Generator/RecordFinder.php:145-161 | returns only positive ids, exactly those of the root page's site, and `[]` when the site is missing |
| RecordFinder.FindLanguageIdsInSiteOrder | Classes/Generator/RecordFinder.php:145-161 | the ids found are the site's positive language ids picked by strictly increasing position, none skipped: same order, one entry per language |
| RecordFinder.GetUidOfLastTopLevelPage | Classes/Generator/RecordFinder.php:75-92 | returns the uid of the live top-level page sorted last when that uid is positive, 0 when it is not, when there is no such page, or when the database fails |
| RecordFinder.HighestIgnoresIdentifiers | Classes/EventListener/SiteConfigurationCreationListener.php:53-61 | the highest language id depends on the configurations only, so computing it after a rename gives the value before it |
| RecordFinder.FindTtContent | Classes/Generator/RecordFinder.php:46-68 | returns the live content elements with the type's marker, restricted to the CTypes when any are given, by uid descending; `[]` on a database error |
| FileHandler.FieldName | Classes/Generator/FileHandler.php:218-227 | the reference field is `assets` exactly for textmedia, `media` exactly for uploads, and `image` for every other CType |
| FileHandler.FindDemoFiles | Classes/Generator/FileHandler.php:250-272 | a missing or offline storage, or a missing demo folder, yields no files; otherwise the folder's files |
| FileHandler.PlanReferences | Classes/Generator/FileHandler.php:229-239 | one reference per (record, file) pair, in record-then-file order, each carrying the record's uid, pid and field name |
| FileHandler.PlanReferencesTargets | Classes/Generator/FileHandler.php:229-239 | every planned reference points at one of the given records, with that record's pid and field |
| FileHandler.GetFalDataForContent | Classes/Generator/FileHandler.php:212-243 | one `tt_content` reference for each found content element and demo file, with the CType's field name; nothing without demo files |
| FileHandler.GetFalDataForPages | Classes/Generator/FileHandler.php:274-298 | one `pages` reference in field `media` for each root or plain-marked page and each demo file |
| FileHandler.PageReferencesOnlyRootAndPlain | Classes/Generator/FileHandler.php:277-283 | a page reference never targets the storage page, only live pages with the root or plain marker |
| FileHandler.HasBlockingReferences | Classes/Generator/FileHandler.php:164-207 | false exactly when every file has no hard and no soft references; true at the first file with either; a failed hard count propagates |
| FileHandler.DeleteFalFolder | Classes/Generator/FileHandler.php:104-157 | the folder is removed, and only it, exactly when the storage is online, the folder exists, no file is referenced and the delete succeeds |
| FileHandler.ReferencedFileKeepsFolder | Classes/Generator/FileHandler.php:125-131 | a folder holding a referenced file is never deleted |
| FileHandler.AddFilesNames | Classes/Generator/FileHandler.php:87-96 | the copy loop adds the files in order and stops at the first name already present |
| FileHandler.AddToFal | Classes/Generator/FileHandler.php:57-97 | nothing happens when the storage is unusable or the folder exists; otherwise the folder is created and holds the files up to the first name clash |
| SiteConfigurationCreation.SiteIdentifier | Classes/EventListener/SiteConfigurationCreationListener.php:50 | the identifier starts with `translation-handling-`, the type and a dash |
| SiteConfigurationCreation.SiteIdentifierInjective | Classes/EventListener/SiteConfigurationCreationListener.php:50 | two root pages of one type never share a site identifier |
| SiteConfigurationCreation.ScenarioSiteConfigWellFormed | Classes/EventListener/SiteConfigurationCreationListener.php:69-100 | the two languages have distinct ids and the fallback of the second names only the first |
| SiteConfigurationCreation.RenameForScenario | Classes/EventListener/SiteConfigurationCreationListener.php:51-60 | a missing site is tolerated; a failing rename throws 1757323932 before anything is written; renaming keeps every configuration |
| SiteConfigurationCreation.CreateSiteConfiguration | Classes/EventListener/SiteConfigurationCreationListener.php:41-111 | a written site is named by the identifier, has base `/identifier`, language 0 and a language one above the highest id of all sites before, with the scenario's fallback type and fallbacks `0`; the message follows the write only on success |
| SiteConfigurationCreation.WriteScenarioSite | Classes/EventListener/SiteConfigurationCreationListener.php:61-110 | a failing write throws 1757323932 and leaves the store alone; otherwise the write and then the message are the last effects |
| SiteConfigurationCreation.ScenarioConfigFresh | Classes/EventListener/SiteConfigurationCreationListener.php:61-98 | the new language id is above every language id that existed before, renamed sites included |
| SiteConfigurationCreation.HighestCoversRenamed | Classes/EventListener/SiteConfigurationCreationListener.php:53-61 | renaming before the lookup does not hide any existing language id from it |
| Localization.ElementRun | Classes/EventListener/LocalizationListener.php:68-95 | a non-array exclude list aborts with 1704540645; an excluded language gives nothing; `free` copies, `connected` localizes; any other mode aborts with 1704469009 |
| Localization.ContentRun | Classes/EventListener/LocalizationListener.php:66-96 | the content pass for one language issues only `tt_content` localize or copy commands for that language |
| Localization.LanguagesRun | Classes/EventListener/LocalizationListener.php:59-97 | the page's localize command for the first language comes first |
| Localization.PageRunDefaults | Classes/EventListener/LocalizationListener.php:53-58 | a missing uid behaves as uid 0 and issues nothing; a missing mode behaves as `connected`; missing content behaves as no content |
| Localization.Plan | Classes/EventListener/LocalizationListener.php:47-52 | an empty language list aborts with 1704469009 before any command |
| Localization.ContentRunAppend | Classes/EventListener/LocalizationListener.php:67-95 | the position counter runs on across the elements, so a content pass splits at any point |
| Localization.ContentRunSplit | Classes/EventListener/LocalizationListener.php:67-95 | each element is handled at its own position between the elements before and after it |
| Localization.MixedAlternates | Classes/EventListener/LocalizationListener.php:67-95 | in mixed mode the element at position j, excluded elements counted, is localized when j is even and copied when j is odd |
| Localization.ContentCommandsFromIncluded | Classes/EventListener/LocalizationListener.php:77-80 | every content command belongs to an element that does not exclude the language |
| Localization.ExcludedGetsNothing | Classes/EventListener/LocalizationListener.php:70-80 | an element excluding the language gets no command for it |
| Localization.NonArrayExcludeAborts | Classes/EventListener/LocalizationListener.php:61-75 | a non-array exclude list aborts with 1704540645 and the page localize already issued stays |
| Localization.PageLocalizedPerLanguageInOrder | Classes/EventListener/LocalizationListener.php:59-63 | a completed page pass localizes the page once per language, in the given order |
| Localization.PageLocalizeBeforeContent | Classes/EventListener/LocalizationListener.php:59-96 | every content command is preceded by the page's localize command for the same language |
| Localization.ExecuteEach | Classes/EventListener/LocalizationListener.php:150-164 | each command runs as its own engine run; the first failing run throws 1757323932 |
| Localization.RunLocalization | Classes/EventListener/LocalizationListener.php:41-101 | no languages aborts with 1704469009 and changes nothing; otherwise the plan's commands run one by one and the completion message comes only after all succeed |
| ContentCreation.ItemsAppend | Classes/EventListener/ContentCreationListener.php:71-72 | the items of two fixtures in a row are the first fixture's items followed by the second's: group order is kept |
| ContentCreation.ItemsFromGroups | Classes/EventListener/ContentCreationListener.php:71-72 | an item occurs exactly when some group holds its fields, and it carries that group's CType |
| ContentCreation.CleanContentDataDropsConfig | Classes/EventListener/ContentCreationListener.php:99-106 | cleaning removes `config` when it is set and keeps every other key and value |
| ContentCreation.ContentFieldsMerge | Classes/EventListener/ContentCreationListener.php:74-83 | a content record has CType, pid and marker; a fixture value wins over them; no other key appears |
| ContentCreation.CreateEach | Classes/EventListener/ContentCreationListener.php:72-86 | one engine run per record, in order, each consuming one placeholder; the first failing run throws |
| ContentCreation.AddItems | Classes/EventListener/ContentCreationListener.php:70-96 | one create per item, in order, and one returned entry per item holding the substituted uid and its config or `[]` |
| ContentCreation.AddContentToPage | Classes/EventListener/ContentCreationListener.php:68-97 | a placeholder page uid is a type error; otherwise every fixture item is created on that page |
| ContentCreation.RootItems | Classes/EventListener/ContentCreationListener.php:108-118 | the root fixture is exactly the welcome textmedia element |
| ContentCreation.GenericItems | Classes/EventListener/ContentCreationListener.php:120-136 | the generic fixture is the textmedia element then the text element, neither with a config |
| ContentCreation.GenericEntries | Classes/EventListener/ContentCreationListener.php:89-92 | a page's recorded content is two entries with consecutive placeholders and config `[]` |
| ContentCreation.GenericEntriesAvoid | Classes/EventListener/ContentCreationListener.php:59-60 | with fresh uids, the generic entries never reuse an element created earlier |
| ContentCreation.AddGenericContent | Classes/EventListener/ContentCreationListener.php:59-60 | a page gets the two generic elements and records them with config `[]` |
| ContentCreation.AddWelcomeContent | Classes/EventListener/ContentCreationListener.php:45-49 | the root page gets one welcome element, created with the scenario marker |
| ContentCreation.SetContent | Classes/EventListener/ContentCreationListener.php:52 | setting a page's content keeps the tree's keys, uids and modes and changes only that entry's content |
| ContentCreation.FillTree | Classes/EventListener/ContentCreationListener.php:55-61 | entries without uid are untouched; every entry with a uid gets the two generic elements |
| ContentCreation.PutWelcome | Classes/EventListener/ContentCreationListener.php:44-52 | the root entry's content is set to the welcome element and nothing else in the tree changes |
| ContentCreation.CreateContent | Classes/EventListener/ContentCreationListener.php:44-61 | after both loops every entry with a uid holds only the generic elements, so the root's welcome entry is overwritten |
| ContentCreation.WelcomeNotLocalized | Classes/EventListener/ContentCreationListener.php:52-63 | the welcome element appears in no entry passed on to localization |
| ContentCreation.RunContentCreation | Classes/EventListener/ContentCreationListener.php:35-66 | localization runs on the filled tree after all content exists, and the content message comes last |
| PageCreation.RootRecord | Classes/EventListener/PageCreationListener.php:53-60 | the entry page is placed after the last top-level page, has the root marker and is a site root |
| PageCreation.StorageRecord | Classes/EventListener/PageCreationListener.php:62-68 | the storage page is a folder (doktype 254) below the entry page, with the storage marker |
| PageCreation.TemplateRecord | Classes/EventListener/PageCreationListener.php:70-80 | the root template sits on the entry page and is a root template |
| PageCreation.SubpageRecord | Classes/EventListener/PageCreationListener.php:109-118 | a subpage lies below the root, is titled with its mode and carries the plain marker |
| PageCreation.RootRowIsTopLevel | Classes/EventListener/PageCreationListener.php:53-59 | the created entry page is a live top-level page with the root marker |
| PageCreation.StorageRowBelowRoot | Classes/EventListener/PageCreationListener.php:62-68 | the created storage page lies below the created entry page |
| PageCreation.SubpageRowBelowRoot | Classes/EventListener/PageCreationListener.php:111-116 | a created subpage lies below the root page with the plain marker |
| PageCreation.EntryFoundAfterCreation | Classes/EventListener/PageCreationListener.php:83-86 | after the first run, the root lookup finds the new entry page |
| PageCreation.CreateEntryPages | Classes/EventListener/PageCreationListener.php:47-83 | one engine run creates the entry page, the storage page and the template, using three fresh placeholders |
| PageCreation.CreateSubpage | Classes/EventListener/PageCreationListener.php:107-119 | one run per subpage, consuming one placeholder |
| PageCreation.CreateSubpages | Classes/EventListener/PageCreationListener.php:101-125 | exactly three subpages, free then connected then mixed, each in its own run |
| PageCreation.WithSubpagesUnique | Classes/EventListener/PageCreationListener.php:121-124 | assigning the subpage entries keeps the tree's keys unique |
| PageCreation.WithSubpagesKeeps | Classes/EventListener/PageCreationListener.php:91-124 | the root and storage entries survive the subpage assignments |
| PageCreation.WithSubpagesAppends | Classes/EventListener/PageCreationListener.php:106-125 | with fresh uids, the three subpage entries are appended after root and storage, in mode order |
| PageCreation.SubpageTree | Classes/EventListener/PageCreationListener.php:91-125 | the tree holds root and storage with a uid and no mode, then the three subpages with their modes |
| PageCreation.CreatePages | Classes/EventListener/PageCreationListener.php:38-130 | the entry pages come first, then the site configuration, the three subpages and the content, with the pages message last; an unsubstituted root fails as a type error |
| PageCreation.AfterEntryPages | Classes/EventListener/PageCreationListener.php:86-129 | the site configuration is written before any subpage is created |
| PageCreation.SubpagesAndContent | Classes/EventListener/PageCreationListener.php:101-127 | the three subpage runs precede the content creation |
| PageCreation.ContentFor | Classes/EventListener/PageCreationListener.php:127 | the content step ends with its own message |
| Scenario.RootLookup | Classes/EventListener/CreateTranslationHandlingScenarioListener.php:49 | the guard fires exactly when the database answers and a live page carries the root marker |
| Scenario.CreateScenario | Classes/EventListener/CreateTranslationHandlingScenarioListener.php:40-62 | an existing root prints the refusal and changes nothing else; otherwise files are added before the page creation and the created message comes last |
| Scenario.BuildPages | Classes/EventListener/CreateTranslationHandlingScenarioListener.php:59 | page creation starts with an engine run |
| Scenario.DeletePlan | Classes/EventListener/DeleteTranslationHandlingScenarioListener.php:61-65 | one delete command per found uid, no duplicates, and nothing else |
| Scenario.DeletePlanCovers | Classes/EventListener/DeleteTranslationHandlingScenarioListener.php:56-65 | a page is planned for deletion exactly when it is live and carries the root, storage or plain marker |
| Scenario.DeleteSiteOf | Classes/EventListener/DeleteTranslationHandlingScenarioListener.php:73-85 | a missing site is tolerated; a failing delete throws 1757323932; otherwise the root's site is gone |
| Scenario.ProcessDeletes | Classes/EventListener/DeleteTranslationHandlingScenarioListener.php:89-90 | the delete run marks exactly the planned pages deleted |
| Scenario.DeleteScenario | Classes/EventListener/DeleteTranslationHandlingScenarioListener.php:47-96 | without a root page only the "already deleted" message is printed; otherwise the site, then the records, then the folder are deleted, and the message comes last |
| Scenario.DeleteRecords | Classes/EventListener/DeleteTranslationHandlingScenarioListener.php:89-95 | the records are deleted before the folder and the message |
| Scenario.RootInPlan | Classes/EventListener/DeleteTranslationHandlingScenarioListener.php:56-67 | the root page found by the early-exit check is always in the delete plan |
| Scenario.PlannedPagesDeleted | Classes/EventListener/DeleteTranslationHandlingScenarioListener.php:55-90 | after the run every page with one of the three markers is deleted |
| Kauderwelsch.Head | Classes/Content/Kauderwelsch.php:36 | `substr(text, 0, n)` is a prefix of length n, or of length + n when n is negative |
| Kauderwelsch.LastSpace | Classes/Content/Kauderwelsch.php:36 | `strrpos` finds the last space, or reports that there is none |
| Kauderwelsch.LoremIpsum | Classes/Content/Kauderwelsch.php:32-40 | the result is always a prefix of the fixed text |
| Kauderwelsch.TruncateKeepsShortText | Classes/Content/Kauderwelsch.php:34-35 | the text comes back whole exactly when the limit is 0 or not below its length; otherwise the result is shorter |
| Kauderwelsch.TruncateAtWordBoundary | Classes/Content/Kauderwelsch.php:35-36 | the cut is shorter than the limit and followed by a space, with no later space inside the limit; no space in the window is a type error |
| Kauderwelsch.TruncateIsLongest | Classes/Content/Kauderwelsch.php:36 | no space-ended prefix inside the limit is longer than the cut |
| Kauderwelsch.LoremIpsumSamples | Classes/Content/Kauderwelsch.php:32-40 | the fixed text: limit 0 keeps it whole, 5 fails, 6 keeps "Bacon" |
| Kauderwelsch.IntroText | Classes/Content/Kauderwelsch.php:57-60 | the fallback type sits verbatim between a fixed prefix and suffix |
| Kauderwelsch.IntroTextInjective | Classes/Content/Kauderwelsch.php:57-60 | different fallback types give different intro texts |
| Generator.FindPages | Classes/Generator/Generator.php:341-371 | the same selection as the record finder, sorted, but a database error propagates instead of giving `[]` |
| Generator.PlainStorageRecord | Classes/Generator/Generator.php:74-80 | the generator's storage folder carries the plain marker, not `_storage` |
| Generator.GroupPageShape | Classes/Generator/Generator.php:97-105 | a content group's subpage is a standard page below the entry page, titled with the CType |
| Generator.ItemFieldsShape | Classes/Generator/Generator.php:107-113 | each item is created with the group's CType, on the group's subpage, with the plain marker |
| Generator.PageTokenIncreasing | Classes/Generator/Generator.php:97-115 | a later group's subpage placeholder comes after all items of earlier groups |
| Generator.GroupRecordsShape | Classes/Generator/Generator.php:95-115 | one subpage per content group, followed by that group's items |
| Generator.GroupTokensDistinct | Classes/Generator/Generator.php:95-115 | no two records of the group plan share a placeholder |
| Generator.CreateRecords | Classes/Generator/Generator.php:59-115 | the data map holds the entry page, the plain storage page, one page per group, the template and the items |
| Generator.OtherPagesPlain | Classes/Generator/Generator.php:74-105 | every page of the data map except the entry page carries the plain marker |
| Generator.OnlyEntryIsRoot | Classes/Generator/Generator.php:69 | only the entry page carries the root marker |
| Generator.RootAfterCreate | Classes/Generator/Generator.php:117-128 | after the run the root lookup finds exactly the new entry page |
| Generator.NewRootFound | Classes/Generator/Generator.php:117-128 | the new entry page is found by the root lookup |
| Generator.GeneratorFallbacksParse | Classes/Generator/Generator.php:222-270 | the four fallback strings parse to `[0]`, `[h+1, 0]`, `[]` and `[h+3]` |
| Generator.GeneratorLanguagesWellFormed | Classes/Generator/Generator.php:195-275 | the five ids 0, h+1 … h+4 are distinct and every fallback names an earlier language |
| Generator.GeneratorConfigFresh | Classes/Generator/Generator.php:187-276 | every new language id is above every id that existed before |
| Generator.RenameSiteOf | Classes/Generator/Generator.php:178-186 | a missing site is tolerated; a failing rename propagates; configurations are kept |
| Generator.SiteConfiguration | Classes/Generator/Generator.php:172-278 | the written site is exactly the five-language configuration for `base + identifier`, the root page and the highest language id of the sites before; those ids are fresh and the fallbacks well ordered; a failing rename or write propagates |
| Generator.RunTree | Classes/Generator/Generator.php:117 | the whole data map is one engine run, after which the root lookup finds the new entry page |
| Generator.FirstRoot | Classes/Generator/Generator.php:128 | the root uid is the first lookup result, or 0 when there is none |
| Generator.Create | Classes/Generator/Generator.php:44-132 | an existing root throws 1702623429 before any write; otherwise the tree is created in one run and the site written with exactly the generator's five languages above the highest id before; no message is printed |
| Generator.CreateTree | Classes/Generator/Generator.php:117-131 | the run, the root lookup and the site configuration, in that order |
| Generator.DeleteSiteOfRoots | Classes/Generator/Generator.php:147-158 | only a missing site is swallowed; a failing delete propagates before any record is deleted |
| Generator.RunDeletes | Classes/Generator/Generator.php:160-161 | the delete run marks exactly the planned pages deleted |
| Generator.Delete | Classes/Generator/Generator.php:134-167 | a database error propagates before anything changes; the site goes first, then one delete run over exactly the live pages with the root or plain marker, which all end deleted; no message is printed |
| Generator.DeleteCovers | Classes/Generator/Generator.php:139-145 | a page is planned for deletion exactly when it is live and carries the root or plain marker |
| Generator.MarkedPagesDeleted | Classes/Generator/Generator.php:139-161 | after the run every page with the root or plain marker is deleted |
| Commands.Selected | Classes/Command/GeneratorCommand.php:65-113 | a known type selects itself, `all` selects the three types, anything else or nothing selects none |
| Commands.GeneratorPlan | Classes/Command/GeneratorCommand.php:55-116 | no option fails before the type is looked at; an unknown type fails; otherwise the creates run before the deletes |
| Commands.CreatePlan | Classes/Command/CreateCommand.php:62-84 | only creates, and only of known types; anything else fails |
| Commands.PlanCovers | Classes/Command/GeneratorCommand.php:65-109 | a type is created or deleted exactly when its option is given and the type is selected |
| Commands.PlanDistinct | Classes/Command/GeneratorCommand.php:96-107 | no call is issued twice |
| Commands.CreateCommandAgrees | Classes/Command/CreateCommand.php:57-87 | the create command behaves as the generator command with only `--create` |
| Commands.AllIsEachInTurn | Classes/Command/GeneratorCommand.php:96-109 | with one option, `all` is fallback, then strict, then free |
| Commands.AllWithBothFlags | Classes/Command/GeneratorCommand.php:96-109 | with both options, `all` makes the same calls as the three types in turn, but all creates come before all deletes |
| Commands.MessagesAppend | Classes/Command/GeneratorCommand.php:123 | console output accumulates in order |
| Commands.SilentKeepsMessages | Classes/Generator/Generator.php:44-167 | the generator itself prints nothing |
| Commands.SayAddsMessage | Classes/Command/GeneratorCommand.php:123 | writing a line adds exactly that line |
| Commands.RunCall | Classes/Command/GeneratorCommand.php:121-132 | a call prints the generator's returned message, or nothing when it throws |
| Commands.RunPlan | Classes/Command/GeneratorCommand.php:65-115 | a rejected plan prints its error and fails; a full run succeeds with one message per call; an exception stops after a prefix of the calls |
| Commands.GeneratorCommand | Classes/Command/GeneratorCommand.php:55-116 | the command's exit status and console output follow its plan |
| Commands.CreateCommand | Classes/Command/CreateCommand.php:57-95 | the command's exit status and console output follow its plan |
| Commands.CreateTwice | Classes/Generator/Generator.php:50-56 | a second create of the same type throws 1702623429 |

## Left out

- Console output other than message text: formatting, logging and the
  logger calls are not modelled.
- `Bootstrap::initializeBackendAuthentication`, cache clearing
  (`clear_cacheCmd`) and `setUpdateSignal`: these are side effects with
  nothing to state.
- Host internals: DataHandler permissions, workspaces and its error-log
  contents; the site finder and writer; the file storage and the SQL
  behind the query builder. Their outcomes are oracle inputs in `Host.Env`,
  and one `Env` holds across all calls.
- `StringUtility::getUniqueId`: this is random. It is modelled as a counter
  of distinct fresh placeholder tokens.
- The three schema-capability checks of the localization listener collapse
  into one `schemaOk` flag, because they all throw 1757323932.
- The web-request branch of `Generator::create`, which takes the domain
  from `TYPO3_REQUEST`: it depends on an HTTP request. Only the CLI branch
  is modelled.
- `Generator::deleteFalFolder`: its call in `delete` is commented out. The
  listener pipeline's `FileHandler::deleteFalFolder` is modelled.
- Site configuration fields that no rule reads are not modelled:
  `routes`, `websiteTitle`, `baseVariants`, `errorHandling`, and each
  language's `enabled`, `typo3Language`, `iso-639-1`, `navigationTitle`,
  `hreflang`, `direction`, `flag` and `websiteTitle`. The model keeps the
  base, the root page, and each language's id, title, base, locale,
  fallback type and fallbacks.
- The command's process exit code after an uncaught exception: the
  exception propagates, as the `thrown` part of the result.
- The remaining `Kauderwelsch` helpers:
  - `getWord`, `getPassword`, `getInteger`, the date helpers, `getLink`,
    `getEmail` and `getHexColor` are random or clock-based;
  - `getFloat` uses floating point;
  - `getIntroHeader` is a constant.
- `Content.php`, the event classes, the TCA and icon configuration and the
  asset build: these are fixtures, getters and registration, with nothing
  to prove.
- Host.Process: the engine's run never adds a site. The real engine
  writes a default site configuration when it creates a site root page,
  and both site steps rename that site. In the model the rename branches
  are taken only for a site already in the store before the run; the
  branch where no site exists writes a fresh one.
- FileHandler.AddFiles: a name already in the folder ends the loop, as the
  catch of the name-clash exception does. The host is called with
  "rename on duplicate" (Classes/Generator/FileHandler.php:91), so it would
  store such a file under a new name and carry on. The folder has just
  been created, so this only matters for a name repeated in the list.
- Kauderwelsch.Head, Kauderwelsch.LastSpace and Kauderwelsch.Truncate
  count characters where PHP's `substr` and `strrpos` count bytes. The two
  agree on ASCII text, and the fixed lorem-ipsum text is ASCII.
- Localization.Plan: the page loop is stated through `PageRun` and the
  lemmas about `LanguagesRun`. There is no closed form for the whole tree.
- Scenario.CreateScenario: states the guard, the files-before-pages order
  and the final message. What page creation builds is stated on
  `PageCreation.CreatePages` and not repeated.
- Commands.GeneratorCommand: states the messages and the exit status, not
  the store contents. The store effects of each call are stated on
  `Generator.Create` and `Generator.Delete`.
- Commands.CreateTwice: assumes the engine substitutes the entry page's
  placeholder. Without that substitution no entry row is created, so a
  second create would not be refused.
