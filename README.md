# DuctApe KEGG client, modelled in Dafny

DuctApe's `Kegg` module fetches pathway data from the KEGG SOAP API using
a pool of `numThreads` API sessions (`KeggAPI` objects, the "handlers").
Each session retries every request up to `retries` times and keeps the
`input` it was asked for and the `result` it got.
`BaseKegg.connect` opens the pool. Each mapper phase does the same four
steps over a list of ids:

- it cuts the list into chunks of at most `numThreads` ids (`get_span`);
- for each chunk it cleans every handler and bumps the progress counter,
  capped at its maximum;
- it sends id `piece[i]` to handler `piece.index(piece[i])`;
- it scans every handler and keeps the truthy results, keyed by the
  handler's `input`.

The phases:

- **Detail phases** (`getReactDetails`, `getPathDetails`,
  `getMapsDetails`, `getCompDetails`, `getKOdet`) skip the ids in `avoid`
  and overwrite the entry of each id whose request came back truthy.
- **Discovery phases** (`getReactions`, `getPathways`,
  `getPathReactions`, `getPathCompounds`, `CompMapper.getPathways`)
  append each result's ids to a link dictionary. Each new id gets a
  `None` placeholder in a detail dictionary. `KoMapper.getReactions` only
  keeps links whose type contains `'original'`.
- **`KoMapper.run` and `CompMapper.run`** connect first, then run their
  phases in a fixed order, then store a `KeggDetails` result.
- **`MapsFetcher`** colours one map per `KeggColor`
  (`getAll` lists its objects and colours). It collects picture file
  names and/or HTML pages. `MapParser` cuts the `<map>` block out of an
  HTML page.

How the model is laid out:

- **Objects the source updates in place are classes.** `KeggAPI`,
  `KeggColor`, `MapParser`, `BaseKegg`, `BaseMapper`, `KoMapper`,
  `CompMapper` and `MapsFetcher` are classes whose methods change their
  fields.
- **Inheritance becomes composition.** A mapper holds its `BaseKegg` pool
  in a `const` field, and `KoMapper` and `CompMapper` hold a `BaseMapper`.
- **The remote service is a parameter.** `Remote` maps an endpoint, an
  entry and a try number to a reply, or to nothing when that try raises.
  A connection oracle `dial(session, try)` plays the same role for
  connecting.
- **Loops are methods proved against value functions.**
  - Every chunk loop is a method with loop invariants.
  - Each phase ensures that the mapper's dictionaries equal a function of
    the old dictionaries (module `Phases`). That function is in turn
    proved equal to a direct, chunk-free description: `Override` for the
    detail phases, `AddAll`/`LinkClosed` for the discovery phases.
- **Strings are Python 2 byte strings.** A Dafny `char` stands for one
  byte of a Python 2 `str`, so `isspace` is the six ASCII whitespace bytes
  and the slices `l[:4]`, `l[:6]` count bytes (module `PyStr`). Unicode
  handling is not modelled.
- **Whole-run properties are lemmas** (module `Runs`). Each link
  dictionary's ids all have a detail entry ("listed"). A run of a fresh
  mapper leaves every title as the reply or `None`. Avoided ids stay
  placeholders.

## Model

| member | source | states |
|---|---|---|
| MapParsing.MapParser.constructor | DuctApe/Kegg/Kegg.py:34-37 | a new parser keeps the page and has already parsed it: its map lines are the page's map fragment |
| MapParsing.MapParser.Parse | DuctApe/Kegg/Kegg.py:39-52 | each call appends the page's map fragment to the map lines and returns the whole list, so a second call repeats the fragment |
| MapParsing.Scan | DuctApe/Kegg/Kegg.py:39-52 | what the loop of `parse` appends, the flag `b` being its second argument; its shape is stated by `MapParsing.ScanShape`, `MapParsing.AtMostOneCloser` and `MapParsing.ScanIsFirstMapBlock` |
| MapParsing.Fragment | DuctApe/Kegg/Kegg.py:39-52 | the fragment a fresh parser extracts from a page; `MapParsing.FragmentWithoutMap` and `MapParsing.ScanIsFirstMapBlock` say what it holds |
| MapParsing.LineTests | DuctApe/Kegg/Kegg.py:43-48 | the slice tests `'<map' in l[:4]` and `'</map' in l[:5]` hold exactly when the line starts with the tag; `'<area' in l[:6]` holds exactly when the tag starts at offset 0 or 1 |
| MapParsing.OpensMap | DuctApe/Kegg/Kegg.py:43 | the test `'<map' in l[:4]`; `MapParsing.LineTests` shows it means the line starts with `<map` |
| MapParsing.IsArea | DuctApe/Kegg/Kegg.py:45 | the test `'<area' in l[:6]`; `MapParsing.LineTests` shows it means `<area` at offset 0 or 1 |
| MapParsing.ClosesMap | DuctApe/Kegg/Kegg.py:47 | the test `'</map' in l[:5]`; `MapParsing.LineTests` shows it means the line starts with `</map` |
| MapParsing.OnlyClosersClose | DuctApe/Kegg/Kegg.py:43-48 | an opening or area line never passes the closing test |
| MapParsing.ScanShape | DuctApe/Kegg/Kegg.py:39-52 | every kept line is an opening, area or closing line; only the last kept line can close the map; outside a map the first kept line opens it |
| MapParsing.AtMostOneCloser | DuctApe/Kegg/Kegg.py:48-50 | a fragment has at most one closing line, and only as its last line (the loop breaks there) |
| MapParsing.ScanWithoutOpener | DuctApe/Kegg/Kegg.py:43-48 | without an opening line nothing is kept, whatever area or closing lines appear |
| MapParsing.FragmentWithoutMap | DuctApe/Kegg/Kegg.py:39-52 | a page none of whose stripped lines starts with `<map` has an empty fragment |
| MapParsing.Cleaned | DuctApe/Kegg/Kegg.py:41-42 | one stripped line per line of the page, in order |
| MapParsing.CleanLine | DuctApe/Kegg/Kegg.py:42 | `l.lstrip().rstrip().strip()`; `PyStr.TripleStrip` shows it equals `l.strip()` |
| MapParsing.ScanFromCleaned | DuctApe/Kegg/Kegg.py:41-47 | every kept line is one of the page's stripped lines |
| MapParsing.ScanTakesStrippedLines | DuctApe/Kegg/Kegg.py:42-50 | every kept line is stripped: no leading or trailing whitespace |
| MapParsing.ScanInside | DuctApe/Kegg/Kegg.py:46-50 | inside a map the parser keeps the map-tag lines up to and including the first closing line |
| MapParsing.ScanIsFirstMapBlock | DuctApe/Kegg/Kegg.py:39-52 | the fragment equals an independent definition: the stripped lines from the first opening line through the first closing line after it, keeping only map-tag lines |
| PyStr.LStripShape | DuctApe/Kegg/Kegg.py:42 | `lstrip` removes a leading run of whitespace and nothing else: the result is a suffix of the input that starts with a non-space, and every removed character is whitespace |
| PyStr.IsSpace | DuctApe/Kegg/Kegg.py:42 | Python 2 `str.isspace` on one byte: space, tab, newline, carriage return, vertical tab and form feed; `PyStr.LStripShape` and `PyStr.RStripShape` say what the strips remove with it |
| PyStr.LStrip | DuctApe/Kegg/Kegg.py:42 | `s.lstrip()`; `PyStr.LStripShape` states that it drops exactly the leading whitespace run |
| PyStr.RStrip | DuctApe/Kegg/Kegg.py:42 | `s.rstrip()`; `PyStr.RStripShape` states that it drops exactly the trailing whitespace run |
| PyStr.Strip | DuctApe/Kegg/Kegg.py:42 | `s.strip()`; `PyStr.StripEnds`, `PyStr.StripSlice` and `PyStr.TripleStrip` say what it leaves |
| PyStr.RStripShape | DuctApe/Kegg/Kegg.py:42 | `rstrip` removes a trailing run of whitespace and nothing else |
| PyStr.LeadingSpace | DuctApe/Kegg/Kegg.py:42 | the length of the leading whitespace run: every character before it is whitespace and the one at it is not |
| PyStr.StripEnds | DuctApe/Kegg/Kegg.py:42 | `strip` gives an empty string or one that begins and ends with a non-space |
| PyStr.StripSlice | DuctApe/Kegg/Kegg.py:42 | `strip` is the slice between the leading and the trailing whitespace, and only whitespace follows it |
| PyStr.LStripDropsLeadingSpace | DuctApe/Kegg/Kegg.py:42 | `lstrip` drops exactly the leading whitespace run |
| PyStr.StripTrimmed | DuctApe/Kegg/Kegg.py:42 | stripping a string without outer whitespace changes nothing |
| PyStr.TripleStrip | DuctApe/Kegg/Kegg.py:42 | `l.lstrip().rstrip().strip()` equals `l.strip()` |
| PyStr.SplitPieces | DuctApe/Kegg/Kegg.py:41 | no piece of `split(sep)` contains the separator |
| PyStr.Split | DuctApe/Kegg/Kegg.py:41 | `s.split(sep)` for a one-character separator, at least one piece; `PyStr.JoinSplit` and `PyStr.SplitJoin` are its round trips with join |
| PyStr.JoinSplit | DuctApe/Kegg/Kegg.py:41 | joining the pieces of `split(sep)` with the separator gives the string back |
| PyStr.SplitJoin | DuctApe/Kegg/Kegg.py:100 | splitting a join of separator-free pieces gives the pieces back |
| PyStr.SplitNoSep | DuctApe/Kegg/Kegg.py:100 | a string without the separator splits into itself alone |
| PyStr.SplitAfterPiece | DuctApe/Kegg/Kegg.py:100 | splitting splits off the first separator-free piece and then the rest |
| PyStr.Head | DuctApe/Kegg/Kegg.py:43 | the slice `s[:n]` has `min(n, len(s))` characters, the first ones of `s` |
| PyStr.ContainsAt | DuctApe/Kegg/Kegg.py:43 | `t in s` holds exactly when `t` occurs at some index of `s` |
| PyStr.Contains | DuctApe/Kegg/Kegg.py:43-48 | the substring test `t in s`; `PyStr.ContainsAt` and `PyStr.PrefixTest` characterise it |
| PyStr.PrefixTest | DuctApe/Kegg/Kegg.py:43 | `p in s[:len(p)]` holds exactly when `s` starts with `p` |
| KeggApi.Budget | DuctApe/Kegg/Kegg.py:78-89 | the number of tries allowed: at least one, and exactly `retries` when it is positive, because the loop compares `attempts >= retries` only after the first failure |
| KeggApi.FirstSuccessSpec | DuctApe/Kegg/Kegg.py:78-89 | a retry loop succeeds exactly when some try within the budget succeeds, and it stops at the first one: every earlier try failed |
| KeggApi.FirstSuccess | DuctApe/Kegg/Kegg.py:78-89 | the try at which a retry loop stops with success, if any within the budget; `KeggApi.FirstSuccessSpec` characterises it |
| KeggApi.FirstSuccessLocal | DuctApe/Kegg/Kegg.py:78-89 | no try past the budget affects the outcome |
| KeggApi.TriesBound | DuctApe/Kegg/Kegg.py:78-89 | a retry loop makes at least one try and at most `retries` (when positive) |
| KeggApi.Tries | DuctApe/Kegg/Kegg.py:78-89 | how many tries a retry loop makes: through the first success, or the whole budget; `KeggApi.TriesBound` bounds it |
| KeggApi.Attempt | DuctApe/Kegg/Kegg.py:91-108 | one try: none without a proxy or when the service raises; a `btit` reply is stripped and split at `;`, and a `btit` reply that is not text raises |
| KeggApi.Fetch | DuctApe/Kegg/Kegg.py:91-108 | a request's outcome: the reply of its first successful try within the budget; `KeggApi.FetchSpec` and `KeggApi.FetchLocal` state it |
| KeggApi.FetchSpec | DuctApe/Kegg/Kegg.py:91-108 | a request fails exactly when every try within the budget raises; when it succeeds its reply is that of a try all of whose predecessors raised |
| KeggApi.FetchLocal | DuctApe/Kegg/Kegg.py:91-108 | two services that answer the first `retries` tries alike give the same outcome |
| KeggApi.TitleTruthy | DuctApe/Kegg/Kegg.py:100 | an obtained title is a non-empty list (`strip().split(';')`), so always truthy |
| KeggApi.Truthy | DuctApe/Kegg/Kegg.py:430-431 | Python truthiness of a result, `if not handler.result`: a non-empty string or list |
| KeggApi.KeggAPI.constructor | DuctApe/Kegg/Kegg.py:61-64 | the WSDL URL is set, no proxy is connected, and input and result are cleared |
| KeggApi.KeggAPI.Clean | DuctApe/Kegg/Kegg.py:66-68 | input and result are `None` |
| KeggApi.KeggAPI.Connect | DuctApe/Kegg/Kegg.py:70-89 | returns true exactly when some try within the budget succeeds; the number of tries is the count up to the first success, else the whole budget; the session is connected afterwards exactly when it was or this call succeeded |
| KeggApi.KeggAPI.Request | DuctApe/Kegg/Kegg.py:91-276 | `input` is the entry whether or not the call succeeds, since it is set before every try; success exactly when some try succeeds; on success `result` is that reply, on failure it is unchanged; tries counted as for connect |
| Coloring.Zip | DuctApe/Kegg/Kegg.py:295-304 | pairs two lists of the same length position by position |
| Coloring.KeysOf | DuctApe/Kegg/Kegg.py:299-301 | `[x for x in d]`: the keys in iteration order; `Coloring.KeggColor.GetAll` states its positions |
| Coloring.ValuesOf | DuctApe/Kegg/Kegg.py:300-302 | `[d[x] for x in d]`: the values in the same order; `Coloring.GetAllColors` ties them to `Coloring.Lookup` |
| Coloring.Lookup | DuctApe/Kegg/Kegg.py:300-302 | `d[x]` for a key of the dictionary; `Coloring.LookupAt` shows it is that key's item value |
| Coloring.KeggColor.constructor | DuctApe/Kegg/Kegg.py:284-287 | stores the pathway, reactions and compounds given |
| Coloring.KeggColor.SetReactions | DuctApe/Kegg/Kegg.py:289-290 | replaces the reactions, nothing else changes |
| Coloring.KeggColor.SetCompounds | DuctApe/Kegg/Kegg.py:292-293 | replaces the compounds, nothing else changes |
| Coloring.KeggColor.GetAll | DuctApe/Kegg/Kegg.py:295-304 | two lists as long as the reactions and compounds together, reactions first and compounds after in dictionary order; position `i` of the colours is the colour of position `i` of the objects |
| Coloring.GetAllZips | DuctApe/Kegg/Kegg.py:295-304 | zipping the two lists gives back the reaction items followed by the compound items |
| Coloring.LookupAt | DuctApe/Kegg/Kegg.py:295-304 | in a dictionary with distinct keys, looking up an item's key gives that item's colour |
| Coloring.GetAllColors | DuctApe/Kegg/Kegg.py:295-304 | every colour is the dictionary value of its parallel object; the dictionaries are `Dict`s, whose keys are distinct as in a Python dict |
| Pool.GetSpan | DuctApe/Kegg/Kegg.py:408 | `get_span(xs, numThreads)`, known to its callers by its contract alone: non-empty chunks of at most `numThreads` ids that concatenate, in order, back to the list |
| Pool.SpanOf | DuctApe/Kegg/Kegg.py:408 | the contract of `get_span`: the chunks concatenate, in order, back to the list and each holds 1 to `numThreads` ids |
| Pool.FlattenCount | DuctApe/Kegg/Kegg.py:408 | `n` chunks of width `w` hold between `n` and `n * w` ids, which bounds the number of rounds |
| Pool.IndexOf | DuctApe/Kegg/Kegg.py:421 | `piece.index(x)` is the first position holding `x` |
| Pool.DedupSpec | DuctApe/Kegg/Kegg.py:416-424 | the ids a chunk serves (first occurrences) are the chunk's ids without repeats, and a chunk without repeats serves all of its ids |
| Pool.DedupEachDistinct | DuctApe/Kegg/Kegg.py:408-424 | over a list without repeats the chunks together serve the list itself |
| Pool.Dedup | DuctApe/Kegg/Kegg.py:416-424 | the ids a chunk serves: the first occurrence of each id, in order; its properties are `Pool.DedupSpec` and `Pool.DedupStep` |
| Pool.DedupEach | DuctApe/Kegg/Kegg.py:408-424 | the ids a phase serves, chunk by chunk; `Pool.DedupEachDistinct` shows it is the list itself when no id repeats |
| Pool.Expected | DuctApe/Kegg/Kegg.py:416-424 | what handler `j` holds after a chunk: the id first occurring at `j` and its request's reply, or nothing; `Pool.BaseKegg.Dispatch` is proved against it and `Pool.ExpectedStep` relates it to one dispatch |
| Pool.DedupStep | DuctApe/Kegg/Kegg.py:416-424 | one more position of a chunk is served exactly when it is that id's first occurrence |
| Pool.ExpectedSlots | DuctApe/Kegg/Kegg.py:408-424 | one slot per handler of the pool |
| Pool.ExpectedSlotsAt | DuctApe/Kegg/Kegg.py:416-424 | handler `j`'s slot after a chunk serves the id whose first occurrence is at `j`, and the other handlers stay clean |
| Pool.ExpectedStep | DuctApe/Kegg/Kegg.py:416-424 | dispatching position `i` changes only handler `piece.index(piece[i])` |
| Pool.ExpectedBefore | DuctApe/Kegg/Kegg.py:416-424 | a repeated id finds its handler clean or already holding the same reply |
| Pool.Slots | DuctApe/Kegg/Kegg.py:430-433 | the slots the scan reads, one per handler, in pool order |
| Pool.Bump | DuctApe/Kegg/Kegg.py:410-412 | one chunk's progress step, `_substatus += numThreads` capped at the maximum; `Pool.BaseKegg.Advance` is proved against it |
| Pool.Progress | DuctApe/Kegg/Kegg.py:408-412 | the progress counter after `n` chunks; `Pool.ProgressClosed` gives its closed form |
| Pool.ProgressClosed | DuctApe/Kegg/Kegg.py:408-412 | after `n >= 1` chunks the progress counter is `min(s + n * numThreads, max)`, so it never exceeds its maximum |
| Pool.OpenedSpec | DuctApe/Kegg/Kegg.py:372-383 | the pool connects all sessions exactly when none fails; otherwise the sessions it opened are exactly those before the first failing one |
| Pool.Opened | DuctApe/Kegg/Kegg.py:372-383 | how many sessions `connect` opens before the first failing one; `Pool.OpenedSpec` characterises it |
| Pool.BaseKegg.constructor | DuctApe/Kegg/Kegg.py:365-370 | an empty pool of the given width, no progress, no failure |
| Pool.BaseKegg.Connect | DuctApe/Kegg/Kegg.py:372-383 | returns true exactly when all `numThreads` sessions connect; it appends exactly the sessions opened before the first failure, each new and clean, and keeps the old handlers |
| Pool.BaseKegg.CleanHandlers | DuctApe/Kegg/Kegg.py:385-387 | the handler list is unchanged and every handler's input and result are `None` |
| Pool.BaseKegg.Advance | DuctApe/Kegg/Kegg.py:410-412 | the progress counter grows by `numThreads`, capped at its maximum |
| Pool.BaseKegg.ResetSubStatus | DuctApe/Kegg/Kegg.py:719-720 | the progress counter is back to zero after a phase |
| Pool.BaseKegg.SendFailure | DuctApe/Kegg/Kegg.py:707-709 | the run records its failure message |
| Pool.BaseKegg.Dispatch | DuctApe/Kegg/Kegg.py:416-424 | from clean handlers, handler `j` ends holding what the request for the id first occurring at `j` left, and a handler no id was sent to stays clean |
| Pool.BaseKegg.RunChunk | DuctApe/Kegg/Kegg.py:408-433 | one chunk: the handlers are cleaned before dispatch, progress is bumped, and the handler slots are exactly this chunk's expected slots, so no slot of an earlier chunk survives |
| Merging.IdCalls | DuctApe/Kegg/Kegg.py:416-424 | the same id always makes the same call; avoided ids make none |
| Merging.Hits | DuctApe/Kegg/Kegg.py:428-433 | what each entry's request contributes to a merge: its reply when the request succeeded with a truthy result, else nothing |
| Merging.Hit | DuctApe/Kegg/Kegg.py:428-433 | what one entry's request contributes to a merge: its reply when the retry loop succeeded with a truthy result |
| Merging.AsTitle | DuctApe/Kegg/Kegg.py:433 | a title is stored as the reply itself, `self.reactdet[handler.input] = handler.result` |
| Merging.ExpectedLast | DuctApe/Kegg/Kegg.py:416-433 | after a chunk, handler `m` serves `piece[m]` when that is its first occurrence and not avoided: input is the id, and the result is truthy exactly when the request gave a title; otherwise the handler is clean |
| Merging.OverrideSpec | DuctApe/Kegg/Kegg.py:416-433 | the detail merge: the keys are the old keys plus the listed, non-avoided ids whose request came back truthy; avoided and non-winning entries keep their old value; winners hold their reply |
| Merging.Override | DuctApe/Kegg/Kegg.py:407-433 | the detail merge described without chunks; `Merging.OverrideSpec` states its keys and values and `Merging.ScannedValuesOverride` ties the chunked scan to it |
| Merging.OverrideAdd | DuctApe/Kegg/Kegg.py:416-433 | one more id overwrites only its own entry, and only when it is not avoided and its request succeeded |
| Merging.OverrideCompose | DuctApe/Kegg/Kegg.py:407-433 | merging chunk after chunk equals merging over their union |
| Merging.OverrideNone | DuctApe/Kegg/Kegg.py:407-433 | a phase over no ids changes nothing |
| Merging.OverrideOwnKeys | DuctApe/Kegg/Kegg.py:407-433 | a detail phase over a dictionary's own keys adds no key |
| Merging.PutValuesSnoc | DuctApe/Kegg/Kegg.py:430-433 | the scan reads the handlers one after another |
| Merging.PutValue | DuctApe/Kegg/Kegg.py:430-433 | one handler of the scan: a truthy result is stored under the handler's input, anything else changes nothing |
| Merging.PutValues | DuctApe/Kegg/Kegg.py:430-433 | the scan of every handler in pool order; `Merging.ChunkValues` ties it to `Merging.Override` |
| Merging.SlotStep | DuctApe/Kegg/Kegg.py:416-433 | handler `m` adds the entry for `piece[m]` exactly when it is a first occurrence, not avoided, with a truthy result |
| Merging.IdsStep | DuctApe/Kegg/Kegg.py:416-433 | the direct description follows the same step |
| Merging.ChunkValues | DuctApe/Kegg/Kegg.py:408-433 | one chunk's scan equals the direct merge over that chunk's ids |
| Merging.ValueStep | DuctApe/Kegg/Kegg.py:408-433 | one more chunk extends the merge by that chunk's ids |
| Merging.ScannedValuesOverride | DuctApe/Kegg/Kegg.py:408-433 | all chunks' scans together equal the direct merge over all the ids, whatever the chunk width |
| Merging.KeysOf | DuctApe/Kegg/Kegg.py:408 | `d.keys()` lists the dictionary's keys without repeats, in an unspecified order |
| Merging.ScanTitles | DuctApe/Kegg/Kegg.py:430-433 | the handler scan skips falsy results and stores each truthy result under its handler's input |
| Merging.ScanMaps | DuctApe/Kegg/Kegg.py:486-490 | the handler scan stores the map fragment of each truthy page under its handler's input |
| Merging.MapOf | DuctApe/Kegg/Kegg.py:486-490 | `MapParser(result).map`: the map fragment of the reply's text |
| Merging.TextOf | DuctApe/Kegg/Kegg.py:489 | the text of a reply; a reply of another shape reads as empty |
| Linking.OriginalsSpec | DuctApe/Kegg/Kegg.py:663-667 | exactly the linked entries of links whose type contains 'original' are kept, at most one per link |
| Linking.Originals | DuctApe/Kegg/Kegg.py:660-670 | the entries of the links typed 'original', in order; `Linking.OriginalsSpec` states which |
| Linking.Targets | DuctApe/Kegg/Kegg.py:513-521 | the ids a discovery scan reads off a result: a list of ids as it is, a list of links only its 'original' entries (lines 660-670) |
| Linking.AddTargets | DuctApe/Kegg/Kegg.py:513-521 | the inner loop for one handler: its targets appended to its list, the list created on first use, each target without a detail entry given a placeholder; `Linking.AddTargetsSnoc` states one step |
| Linking.Placeholders | DuctApe/Kegg/Kegg.py:520-521 | a `None` detail entry for each linked id that has none; existing entries are kept; `Linking.AddAllGrows` states it |
| Linking.AddOne | DuctApe/Kegg/Kegg.py:513-521 | one id of a discovery phase: a truthy result adds its targets, anything else changes nothing |
| Linking.AddAll | DuctApe/Kegg/Kegg.py:493-521 | a discovery phase described by the ids it handles, in order; `Linking.ScannedLinksAdd` ties the chunked scan to it |
| Linking.LinkClosed | DuctApe/Kegg/Kegg.py:692-703 | a discovery phase over distinct ids described directly: each list extended by its own id's targets, each new target given a placeholder; `Linking.AddAllDistinct` ties it to `AddAll` |
| Linking.PlaceholdersTwice | DuctApe/Kegg/Kegg.py:516-521 | placeholders added in two rounds are those of both |
| Linking.AddTargetsSnoc | DuctApe/Kegg/Kegg.py:516-521 | one target appends to `links[id]`, creating it when missing, and gives the target a `None` placeholder only when it has no detail entry |
| Linking.PutLinksSnoc | DuctApe/Kegg/Kegg.py:513-521 | the discovery scan reads the handlers one after another |
| Linking.PutLink | DuctApe/Kegg/Kegg.py:513-521 | one handler of the discovery scan: a truthy result adds its targets under the handler's input |
| Linking.PutLinks | DuctApe/Kegg/Kegg.py:513-521 | the discovery scan of every handler in pool order; `Linking.ChunkLinks` ties it to `Linking.AddAll` |
| Linking.AddAllSnoc | DuctApe/Kegg/Kegg.py:513-521 | handling one more id adds its own targets |
| Linking.AddAllConcat | DuctApe/Kegg/Kegg.py:493-521 | handling one list after another equals handling their concatenation |
| Linking.LinkSlotStep | DuctApe/Kegg/Kegg.py:501-521 | handler `m` adds targets under `piece[m]` exactly when it is a first occurrence with a truthy result |
| Linking.LinksBeyond | DuctApe/Kegg/Kegg.py:513-521 | handlers past the chunk contribute nothing |
| Linking.ChunkLinksUpTo | DuctApe/Kegg/Kegg.py:493-521 | the scan of a chunk's first `n` handlers handles that prefix's ids without repeats |
| Linking.ChunkLinks | DuctApe/Kegg/Kegg.py:493-521 | one chunk's discovery scan equals handling the chunk's ids without repeats |
| Linking.LinkStep | DuctApe/Kegg/Kegg.py:493-521 | one more chunk extends the discovery by that chunk's ids |
| Linking.ScannedLinksAdd | DuctApe/Kegg/Kegg.py:493-521 | all chunks' discovery scans equal handling each chunk's ids in order |
| Linking.LinksClosedAdd | DuctApe/Kegg/Kegg.py:514-521 | a new id with a non-empty result extends only its own list |
| Linking.FoundAdd | DuctApe/Kegg/Kegg.py:514-521 | a new id adds exactly its own targets to the ids found |
| Linking.LinkClosedAdd | DuctApe/Kegg/Kegg.py:514-521 | the direct description of the discovery follows the same step |
| Linking.AddAllDistinct | DuctApe/Kegg/Kegg.py:493-521 | over ids without repeats the discovery equals the direct description: each list extended by its own id's targets, each new target given a placeholder |
| Linking.AddAllGrows | DuctApe/Kegg/Kegg.py:514-521 | discovery is append-only: old lists are prefixes of the new ones, new keys come from the handled ids, old detail values are kept, and new detail entries are `None` |
| Linking.AddAllListed | DuctApe/Kegg/Kegg.py:514-521 | when every id a list names has a detail entry, that stays true after discovery |
| Linking.AppendIds | DuctApe/Kegg/Kegg.py:514-521 | the inner loop appends the result's ids under the handler's input and gives each new id a placeholder |
| Linking.AppendOriginals | DuctApe/Kegg/Kegg.py:661-670 | the inner loop appends only the 'original' links' entries and gives each new one a placeholder |
| Linking.ScanLinks | DuctApe/Kegg/Kegg.py:513-521 | the handler scan skips falsy results and adds each truthy result's targets under its handler's input |
| Phases.ReactDetails | DuctApe/Kegg/Kegg.py:407-433 | `getReactDetails`: `Override` of the reaction titles over their own keys |
| Phases.PathDetails | DuctApe/Kegg/Kegg.py:435-461 | `getPathDetails`: `Override` of the pathway titles over their own keys |
| Phases.MapsDetails | DuctApe/Kegg/Kegg.py:463-490 | `getMapsDetails`: `Override` of the maps over the known pathways, each value the page's map fragment |
| Phases.CompDetails | DuctApe/Kegg/Kegg.py:554-580 | `getCompDetails`: `Override` of the compound titles over their own keys |
| Phases.PathReactions | DuctApe/Kegg/Kegg.py:492-521 | `getPathReactions`: `LinkClosed` over the known pathways, new reactions given placeholders |
| Phases.PathCompounds | DuctApe/Kegg/Kegg.py:523-552 | `getPathCompounds`: `LinkClosed` over the known pathways, new compounds given placeholders |
| Phases.PathContents | DuctApe/Kegg/Kegg.py:733-753 | the two pathway discovery phases in run order; `Runs.PathContentsListed` and `Runs.PathContentsFresh` state their effect |
| Phases.DetailPhases | DuctApe/Kegg/Kegg.py:766-804 | the four detail phases in run order; `Runs.DetailPhasesKeys` and `Runs.DetailPhasesFinish` state their effect |
| Phases.KoDetails | DuctApe/Kegg/Kegg.py:612-638 | `getKOdet`: `Override` of the KO titles over the KO list |
| Phases.KoReactions | DuctApe/Kegg/Kegg.py:640-670 | `getReactions`: `AddAll` over the first occurrences of each chunk, in chunk order |
| Phases.KoPathways | DuctApe/Kegg/Kegg.py:672-703 | `getPathways`: `LinkClosed` over the known reactions |
| Phases.KoDiscovery | DuctApe/Kegg/Kegg.py:711-753 | the four discovery phases of `KoMapper.run` in order |
| Phases.KoRun | DuctApe/Kegg/Kegg.py:705-804 | `KoMapper.run` once connected; `Runs.KoRunListed` and `Runs.KoRunFresh` state what it guarantees |
| Phases.CompPathways | DuctApe/Kegg/Kegg.py:841-872 | `CompMapper.getPathways`: `AddAll` over the first occurrences of each chunk, in chunk order |
| Phases.CompRun | DuctApe/Kegg/Kegg.py:880-952 | `CompMapper.run` once connected; `Runs.CompRunListed` and `Runs.CompRunFresh` state what it guarantees |
| Phases.KoResult | DuctApe/Kegg/Kegg.py:808-813 | the result a KoMapper crafts: every dictionary but the compound-to-pathway links |
| Phases.CompResult | DuctApe/Kegg/Kegg.py:956-961 | the result a CompMapper crafts: no KO details nor KO links |
| Runs.ListedGrows | DuctApe/Kegg/Kegg.py:514-521 | a detail dictionary that only gains keys keeps its link dictionary listed |
| Runs.LinkClosedListed | DuctApe/Kegg/Kegg.py:516-521 | a discovery phase keeps its link dictionary listed and drops no detail key |
| Runs.AddAllKeepsListed | DuctApe/Kegg/Kegg.py:640-670 | a chunked discovery phase keeps its link dictionary listed and drops no detail key |
| Runs.DetailPhasesKeys | DuctApe/Kegg/Kegg.py:766-804 | the four detail phases change no detail key and no link |
| Runs.PathContentsListed | DuctApe/Kegg/Kegg.py:733-753 | the two discovery phases over the pathways keep the dictionaries listed and drop no detail key |
| Runs.KoRunListed | DuctApe/Kegg/Kegg.py:705-813 | a whole `KoMapper.run` keeps every link dictionary listed: each reaction, pathway and compound it links to has a detail entry |
| Runs.CompRunListed | DuctApe/Kegg/Kegg.py:874-961 | a whole `CompMapper.run` keeps every link dictionary listed |
| Runs.LinkClosedPending | DuctApe/Kegg/Kegg.py:516-521 | a discovery phase leaves placeholders as placeholders |
| Runs.AddAllPending | DuctApe/Kegg/Kegg.py:640-670 | so does a chunked discovery phase |
| Runs.LinksFromEmpty | DuctApe/Kegg/Kegg.py:492-521 | from an empty link dictionary, a discovery phase keys exactly the ids whose result lists something, each with that list |
| Runs.OverrideSettles | DuctApe/Kegg/Kegg.py:407-433 | a title phase over placeholders leaves each entry holding its reply, or `None` when avoided or failed, and adds no key |
| Runs.DetailPhasesFinish | DuctApe/Kegg/Kegg.py:766-804 | the four detail phases over placeholders settle every title and give a map exactly to each non-avoided pathway whose page came back |
| Runs.PathContentsFresh | DuctApe/Kegg/Kegg.py:733-753 | from empty links, the pathway discovery phases leave each pathway's reactions and compounds equal to its request's list, and the details still placeholders |
| Runs.KoRunFresh | DuctApe/Kegg/Kegg.py:705-813 | after a fresh `KoMapper.run`, every title is the reply or `None` (avoided or failed) and every map is the page's fragment; a KO has a title exactly when it is listed, not avoided and its request succeeded; every listed id has a detail entry |
| Runs.CompRunFresh | DuctApe/Kegg/Kegg.py:874-961 | the same guarantees for the shared dictionaries after a fresh `CompMapper.run`, and every pathway a compound led to has a detail entry |
| Runs.AvoidedStayPending | DuctApe/Kegg/Kegg.py:417-418 | a corollary of `Runs.Finished`, which `Runs.KoRunFresh` and `Runs.CompRunFresh` establish: after a run an avoided id never has a title or a map |
| Runs.TitlesAreHits | DuctApe/Kegg/Kegg.py:430-433 | a corollary of `Runs.Finished`, which `Runs.KoRunFresh` and `Runs.CompRunFresh` establish: every title after a run is the reply of its own request |
| Runs.ChunkingIrrelevant | DuctApe/Kegg/Kegg.py:640-670 | over a list without repeats, every chunking `get_span` may return makes a discovery phase find the same links and placeholders as the chunk-free `LinkClosed` |
| Runs.ChunkingMatters | DuctApe/Kegg/Kegg.py:640-670 | with a repeated id the chunking does matter: `[k, k]` in one chunk appends `k`'s reactions once, in two chunks twice, and both are chunkings `get_span` may return |
| Mappers.BaseMapper.constructor | DuctApe/Kegg/Kegg.py:390-405 | an empty pool of the given width with zero progress and no failure, the avoid list, empty dictionaries and no result |
| Mappers.BaseMapper.TitleChunk | DuctApe/Kegg/Kegg.py:409-433 | one chunk of a title phase: progress bumped, handlers kept, and the dictionary after the scan is the scan of this chunk's slots |
| Mappers.BaseMapper.MapChunk | DuctApe/Kegg/Kegg.py:465-490 | the same for one chunk of the map phase |
| Mappers.BaseMapper.LinkChunk | DuctApe/Kegg/Kegg.py:494-521 | the same for one chunk of a discovery phase, no id avoided |
| Mappers.BaseMapper.TitleLoop | DuctApe/Kegg/Kegg.py:408-433 | the chunk loop of a title phase gives the chunk-by-chunk scans, and progress is the capped `Progress` of the chunk count |
| Mappers.BaseMapper.TitleRounds | DuctApe/Kegg/Kegg.py:408-433 | a title phase over a key list equals the direct merge `Override` over its keys |
| Mappers.BaseMapper.MapLoop | DuctApe/Kegg/Kegg.py:464-490 | the chunk loop of the map phase gives the chunk-by-chunk scans |
| Mappers.BaseMapper.MapRounds | DuctApe/Kegg/Kegg.py:464-490 | the map phase over a key list equals the direct merge of map fragments |
| Mappers.BaseMapper.LinkLoop | DuctApe/Kegg/Kegg.py:493-521 | the chunk loop of a discovery phase gives the chunk-by-chunk scans |
| Mappers.BaseMapper.LinkRounds | DuctApe/Kegg/Kegg.py:493-521 | a discovery phase over a key list equals handling each chunk's ids in order |
| Mappers.BaseMapper.GetReactDetails | DuctApe/Kegg/Kegg.py:407-433 | the dictionaries become `ReactDetails` of the old ones: each non-avoided reaction with a truthy title holds it, and everything else is unchanged |
| Mappers.BaseMapper.GetPathDetails | DuctApe/Kegg/Kegg.py:435-461 | the same for the pathway titles |
| Mappers.BaseMapper.GetMapsDetails | DuctApe/Kegg/Kegg.py:463-490 | each non-avoided known pathway whose page came back gets that page's map fragment |
| Mappers.BaseMapper.GetCompDetails | DuctApe/Kegg/Kegg.py:554-580 | the same for the compound titles |
| Mappers.BaseMapper.GetPathReactions | DuctApe/Kegg/Kegg.py:492-521 | each known pathway's reactions are appended to its list, and each new reaction gets a placeholder |
| Mappers.BaseMapper.GetPathCompounds | DuctApe/Kegg/Kegg.py:523-552 | the same for the pathways' compounds |
| Mappers.BaseMapper.EndPhase | DuctApe/Kegg/Kegg.py:719-720 | after a phase the handlers are clean and the progress counter is zero |
| Mappers.BaseMapper.PathwayPhases | DuctApe/Kegg/Kegg.py:766-784 | pathway details, then pathway maps over the pathways known then, each followed by clean handlers and zero progress |
| Mappers.BaseMapper.ObjectPhases | DuctApe/Kegg/Kegg.py:786-804 | reaction details, then compound details, each followed by clean handlers and zero progress |
| Mappers.BaseMapper.FinishRun | DuctApe/Kegg/Kegg.py:766-804 | pathway details, maps, reaction details and compound details, in that order, each over the keys known when it starts |
| Mappers.BaseMapper.DiscoverContents | DuctApe/Kegg/Kegg.py:733-753 | the reactions and then the compounds of every known pathway |
| Mappers.KoMapper.constructor | DuctApe/Kegg/Kegg.py:602-610 | the KO list, the avoid list, an empty pool with zero progress and no failure, and empty dictionaries |
| Mappers.KoMapper.GetKOdet | DuctApe/Kegg/Kegg.py:612-638 | each listed, non-avoided KO with a truthy title holds it; nothing else changes |
| Mappers.KoMapper.GetReactions | DuctApe/Kegg/Kegg.py:640-670 | over the chunks `get_span` returned for the KO list, each KO's 'original' reactions are appended to its list, chunk after chunk (`KoReactions`), and each new reaction gets a placeholder |
| Mappers.KoMapper.GetPathways | DuctApe/Kegg/Kegg.py:672-703 | each known reaction's pathways are appended to its list and each new pathway gets a placeholder |
| Mappers.KoMapper.Discover | DuctApe/Kegg/Kegg.py:711-753 | getReactions over the chunks `get_span` returned, then getPathways, getPathReactions and getPathCompounds, each phase over the keys the previous ones left (`KoDiscovery`) |
| Mappers.KoMapper.Describe | DuctApe/Kegg/Kegg.py:755-804 | getKOdet and then the four detail phases |
| Mappers.KoMapper.Phases | DuctApe/Kegg/Kegg.py:711-804 | the whole phase sequence of `run` once connected equals `KoRun` over the chunks `get_span` returned for the KO list; handlers kept, progress zero |
| Mappers.KoMapper.Proceed | DuctApe/Kegg/Kegg.py:711-813 | the phases, then the result object holding the KO dictionaries and no compound links; handlers kept, progress zero |
| Mappers.KoMapper.Run | DuctApe/Kegg/Kegg.py:705-813 | the pool keeps its old handlers and gains exactly the sessions opened before the first failing one; when every session connects, the dictionaries are `KoRun` of the old ones over the chunks `get_span` returned, the result is set and progress is zero; otherwise the connect failure is recorded and the dictionaries, the result and both progress counters are unchanged |
| Mappers.CompMapper.constructor | DuctApe/Kegg/Kegg.py:833-839 | the compound list, the avoid list, an empty pool with zero progress and no failure, and empty dictionaries |
| Mappers.CompMapper.GetPathways | DuctApe/Kegg/Kegg.py:841-872 | over the chunks `get_span` returned for the compound list, each compound's pathways are appended to its list, chunk after chunk (`CompPathways`), and each new pathway gets a placeholder |
| Mappers.CompMapper.Phases | DuctApe/Kegg/Kegg.py:880-952 | getPathways, the two pathway discovery phases, then the four detail phases, equal to `CompRun` over the chunks `get_span` returned |
| Mappers.CompMapper.Proceed | DuctApe/Kegg/Kegg.py:880-961 | the phases, then the result object with no KO data |
| Mappers.CompMapper.Run | DuctApe/Kegg/Kegg.py:874-961 | the pool keeps its old handlers and gains exactly the sessions opened before the first failing one; when every session connects, the dictionaries are `CompRun` of the old ones over the chunks `get_span` returned, the result is set and progress is zero; otherwise the connect failure is recorded and the dictionaries, the result and both progress counters are unchanged |
| Fetching.PathJoinParts | DuctApe/Kegg/Kegg.py:1002-1009 | `os.path.join(a, b)` ends with `b`; an absolute `b` replaces `a`, and otherwise the result starts with `a` and adds at most one separator |
| Fetching.PathJoin | DuctApe/Kegg/Kegg.py:1003-1009 | POSIX `os.path.join` of two parts; `Fetching.PathJoinParts` states its shape |
| Fetching.KeggRoom | DuctApe/Kegg/Kegg.py:1002-1010 | the path `makeRoom` records as `_keggroom`; `Fetching.KeggRoomUnder` states it for a relative prefix |
| Fetching.PicFile | DuctApe/Kegg/Kegg.py:1043-1044 | the file a picture is written to: `join(room, input) + '.png'` |
| Fetching.KeggRoomUnder | DuctApe/Kegg/Kegg.py:995-1014 | for a relative prefix the room is `<cwd>/tmp/keggmaps/<prefix>` |
| Fetching.RequestsOf | DuctApe/Kegg/Kegg.py:1025-1032 | every colour object has a request built from its pathway and its `getAll` lists, and nothing else does |
| Fetching.CallsOf | DuctApe/Kegg/Kegg.py:1025-1032 | each object of a chunk makes its own request |
| Fetching.Ask | DuctApe/Kegg/Kegg.py:1025-1032 | the request of one colour object: its pathway with the objects and colours of its `getAll()` |
| Fetching.CallsOfFit | DuctApe/Kegg/Kegg.py:1025-1032 | the same object always makes the same request |
| Fetching.ServedAll | DuctApe/Kegg/Kegg.py:1025-1034 | the slot each served object leaves, in order |
| Fetching.GatherIn | DuctApe/Kegg/Kegg.py:1040-1048 | a name is collected exactly when some handler's slot produces it |
| Fetching.Gather | DuctApe/Kegg/Kegg.py:1040-1048 | the scan of the first handlers in pool order, each adding what `f` gives; `Fetching.GatherIn`, `Fetching.GatherLength` and `Fetching.GatherConcat` state it |
| Fetching.FileOf | DuctApe/Kegg/Kegg.py:1040-1048 | what one handler gives `getMaps`: the file name of its truthy picture, else nothing |
| Fetching.GatherLength | DuctApe/Kegg/Kegg.py:1040-1048 | a scan producing at most one name per handler collects at most one per handler |
| Fetching.GatherConcat | DuctApe/Kegg/Kegg.py:1040-1048 | scanning two lists of slots collects the names of the first, then those of the second |
| Fetching.ScanPics | DuctApe/Kegg/Kegg.py:1040-1048 | the handler scan skips falsy results and collects `join(room, input) + '.png'` for each truthy one, in handler order |
| Fetching.ScanPages | DuctApe/Kegg/Kegg.py:1073-1076 | the handler scan collects each truthy page, in handler order |
| Fetching.PageOf | DuctApe/Kegg/Kegg.py:1073-1076 | what one handler gives `getPages`: its truthy result, else nothing |
| Fetching.ChunkGather | DuctApe/Kegg/Kegg.py:1017-1048 | one chunk's scan collects, in order, what each object served by the chunk (its first occurrences) produced; handlers beyond the chunk add nothing |
| Fetching.CollectedAll | DuctApe/Kegg/Kegg.py:1017-1048 | all chunks' scans together collect what each chunk's served objects produced, in order |
| Fetching.ServedAllConcat | DuctApe/Kegg/Kegg.py:1017-1048 | serving two lists serves the first, then the second |
| Fetching.DedupUpToEach | DuctApe/Kegg/Kegg.py:1017-1021 | the objects served by the first `c` chunks, in order |
| Fetching.FilesNamed | DuctApe/Kegg/Kegg.py:1040-1048 | at most one file name per object; a name is collected exactly when some object's picture came back, and it is `<room>/<pathway>.png` |
| Fetching.UrlsCollected | DuctApe/Kegg/Kegg.py:1073-1076 | at most one page per object; a page is collected exactly when it is some object's reply |
| Fetching.DistinctColors | DuctApe/Kegg/Kegg.py:1017-1021 | over distinct colour objects, every chunking `get_span` may return serves every object exactly once, in order |
| Fetching.Pictures | DuctApe/Kegg/Kegg.py:1016-1048 | the file names `getMaps` collects over the chunks `get_span` returned; `Fetching.FilesNamed` says which |
| Fetching.Urls | DuctApe/Kegg/Kegg.py:1050-1076 | the pages `getPages` collects over the chunks `get_span` returned; `Fetching.UrlsCollected` says which |
| Fetching.MapsFetcher.constructor | DuctApe/Kegg/Kegg.py:979-993 | the colour objects, the two flags, the prefix, an empty pool with zero progress and no failure, no room, and no pictures or pages |
| Fetching.MapsFetcher.MakeRoom | DuctApe/Kegg/Kegg.py:995-1014 | the room is recorded as `join(join(join(cwd, 'tmp'), 'keggmaps'), prefix)` |
| Fetching.MapsFetcher.PicsChunk | DuctApe/Kegg/Kegg.py:1018-1048 | one chunk of `getMaps`: progress bumped, handlers kept, and the names collected are those of the chunk's served objects |
| Fetching.MapsFetcher.PicsLoop | DuctApe/Kegg/Kegg.py:1017-1048 | the chunk loop collects every chunk's names in order, with capped progress |
| Fetching.MapsFetcher.GetMaps | DuctApe/Kegg/Kegg.py:1016-1048 | `pics` gains the file names of every colour object whose picture came back, in the order of the chunks `get_span` returned; nothing is removed |
| Fetching.MapsFetcher.PagesChunk | DuctApe/Kegg/Kegg.py:1051-1076 | one chunk of `getPages`: the pages of the chunk's served objects |
| Fetching.MapsFetcher.PagesLoop | DuctApe/Kegg/Kegg.py:1051-1076 | the chunk loop collects every chunk's pages in order |
| Fetching.MapsFetcher.GetPages | DuctApe/Kegg/Kegg.py:1050-1076 | `pages` gains the page of every colour object whose request came back, in the order of the chunks `get_span` returned |
| Fetching.MapsFetcher.PicturePhase | DuctApe/Kegg/Kegg.py:1087-1097 | the picture phase, then clean handlers and zero progress: every handler's input and result are `None` afterwards |
| Fetching.MapsFetcher.PagePhase | DuctApe/Kegg/Kegg.py:1099-1111 | the page phase, then clean handlers and zero progress: every handler's input and result are `None` afterwards |
| Fetching.MapsFetcher.Proceed | DuctApe/Kegg/Kegg.py:1087-1111 | pictures are fetched only when asked for, pages only when asked for, pictures first |
| Fetching.MapsFetcher.Run | DuctApe/Kegg/Kegg.py:1078-1111 | the room is always recorded; the pool keeps its old handlers and gains exactly the sessions opened before the first failing one; when every session connects, `pics` and `pages` gain what the asked-for phases collected and progress is zero after any phase; otherwise the connect failure is recorded and nothing is collected, progress unchanged |

## Left out

- Threads: each chunk is dispatched one handler after another. Repeats of an id share the handler of its first occurrence. They write the same values, because replies are deterministic, so the race is not visible in the model. The coordinator joins every thread before it scans. `time.sleep` and the busy-wait are left out.
- Exceptions: one raised in a worker thread stays in that thread, so an exhausted request only leaves the handler's result `None`. The scans of the results run in `run`'s own thread, though, and there a wrong-shaped reply or a failed `open` raises and `run` stops with `sendFailure`. The model has no such failure path; the next lines say what it does instead.
- Linking.Targets: a reply of the wrong shape reads as no targets or unfiltered. A text reply to a list endpoint gives `[]`, where the source iterates its characters. A non-link reply to `get_linkdb_by_entry` is kept as it is, where the source raises on `react.type` (line 664).
- Merging.TextOf: a non-text page reads as empty text, so `MapOf` gives an empty fragment, where `MapParser(handler.result)` (line 489) raises on a non-string.
- Mappers.KoMapper.Run: promises a full result once every session connects, since the wrong-shaped replies above do not fail in the model; it also requires `numThreads >= 1`, because `get_span` cannot cut a non-empty list into chunks of width 0.
- Mappers.CompMapper.Run: the same as for `Mappers.KoMapper.Run`.
- Fetching.MapsFetcher.Run: the PNG files are not written, so the `IOError` that `open` (line 1045) raises when `makeRoom` failed to create the room is not modelled. The source then stops with `sendFailure` and `pics` partly filled; the model collects every name. It also requires `numThreads >= 1`, as above.
- The SOAP proxy, `urllib` and the network become the `Remote` and `dial` parameters. They are deterministic per try number.
- `updateStatus`, the status queue and `_statusDesc`: CommonThread is not part of this model. `resetSubStatus` sets the progress counter to zero, and `sendFailure` records its message in a field.
- Logging and `print`.
- `makeRoom`'s `os.path.abspath` and `mkdir` calls: the working directory is a parameter, and the room is recorded even when a `mkdir` fails, as in the source.
- The PNG files that `getMaps` writes: only their names are kept.
- `KeggNet` is not part of this model.
- The `KeggDetails` getters and setters: a result is one value holding the dictionaries.
- Pool.GetSpan: `get_span` from DuctApe/Common/utils.py is not part of this model. Its callers know it only by its contract `SpanOf`: non-empty chunks of at most `numThreads` ids that concatenate back to the list. Every phase result is stated over the chunks it returned. `Runs.ChunkingMatters` shows that with repeated ids the chunking changes the result.
- Merging.KeysOf: dictionary key order is left open; `keys()` is an arbitrary enumeration without repeats.
- Only the default `retries=3` is used by the phases; `Connect` and `Request` take any `retries`.
- `getTitle` and its siblings differ only in the endpoint called. `Request` models all of them, with the endpoint as a parameter.
- `getHTMLColoredPathway` appears only as the map page of `getMapsDetails`, which always passes empty object and colour lists.
- The phase methods of the mappers require a connected pool (`Ready`), which only `run` provides.
- Fetching.RequestsOf: `Fetching.MapsFetcher.Run` takes the `getAll` requests of every colour object once, at the start. The source calls `getAll` per chunk, but nothing changes a colour object during a run.
- `MapsFetcher.result` is the tuple `(pics, pages)`, which aliases the two lists. The model keeps `pics` and `pages` only.
- A result without an input cannot occur: a handler with a result was sent an id.
- An id that appears twice is requested and merged once per chunk it appears in, as in the source. `Runs.ChunkingMatters` shows the difference; `Runs.ChunkingIrrelevant` and `Fetching.DistinctColors` cover lists without repeats.
- The source keys each handler's result by its `input`. So for `MapsFetcher`, two colour objects of the same pathway in different chunks give two file names that are the same.
