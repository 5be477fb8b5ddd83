# Principles and tactics: a verified model of the record store

The application keeps a library of *principles* (a title, a description, a
category, a colour and a display order) and, under each principle, its
*tactics* (a title, an optional description, an "is effective" flag and an
order). A small Express server exposes six JSON endpoints over a two-table
Postgres store. A seeding routine fills an empty store with five example
principles and thirteen tactics. A React page lists them with a category
filter, category buttons, a tactic total and colour badges.

This project models that core in Dafny and proves its properties:

| module | file | models |
|---|---|---|
| `Wrappers` | `wrappers.dfy` | `Option` and `Result` |
| `Ordering` | `ordering.dfy` | `ORDER BY`, as a stable insertion sort stated only as "sorted and a permutation" |
| `Schema` | `schema.dfy` | the two tables' rows and column defaults, the insert shapes without `id`, `PrincipleWithTactics`, and the insert schemas' field-by-field validation of a JSON body |
| `Storage` | `storage.dfy` | `DatabaseStorage`. The tables are a value `Db(principles, tactics, nextId)` with pure transition functions. The `Store` class holds the same fields and updates them in place; each method is proved to produce exactly the transition function's result. |
| `SeedData`, `Seed`, `SeedProperties` | `seed_data.dfy`, `seed.dfy`, `seed_properties.dfy` | the fixed example set, the check-then-insert `seedDatabase` method and its specification, and what seeding produces |
| `Routes` | `routes.dfy` | the six handlers, as a function from store, request and store health to new store and response, plus the method that runs one against a `Store` |
| `Workspace` | `workspace.dfy` | the page's derivations (`filtered`, `categories`, `totalTactics`), `getColorBg`, the two form schemas and the payloads the forms send |

Ids are natural numbers handed out by the store's counter `nextId`. It stands
in for `gen_random_uuid()`: every id the store generates is larger than every
id already in either table, so it is fresh. The invariant `Storage.Consistent`
states what the tables guarantee:
- ids are unique in each table;
- `nextId` is fresh;
- every tactic's `principleId` names an existing principle (the foreign key).

Every write keeps this invariant, and the store class's `Valid()` is this
invariant.

A request body is modelled field by field, as `Missing`, `Null`, `Given(v)` or
`WrongType`. The insert schemas are generated from the table definitions, so
the rules follow the columns:
- a not-null column without a default is required;
- a column with a default may be left out, but not sent as `null`;
- the nullable tactic description may be left out or sent as `null`.

The server checks only presence and type. It accepts an empty title or
description (`Schema.EmptyTextAccepted`, `Routes.EmptyTitleCreated`). Length
limits exist only in the page's forms (`Workspace.LimitsAreClientSide`).

## Model

| member | source | states |
|---|---|---|
| `Ordering.SortBy` | server/storage.ts:21-22 | the rows `ORDER BY order` returns are a permutation of the table in non-decreasing `order` |
| `Ordering.SortSortedIsIdentity` | server/storage.ts:21 | rows whose orders strictly increase have only one sorted arrangement, so `ORDER BY order` returns them as they are, however ties would be broken |
| `Schema.WithTactics` | shared/schema.ts:32 | a `PrincipleWithTactics` is exactly a principle's fields plus a list of tactics |
| `Schema.NewPrinciple` | shared/schema.ts:6-13 | a stored principle carries the given id, title and description, and each omitted column takes its default |
| `Schema.NewTactic` | shared/schema.ts:15-22 | a stored tactic carries the given id, principle, title and description, and `isEffective` and `order` take their defaults when omitted |
| `Schema.CheckRequired` | shared/schema.ts:8-9 | a not-null column without a default passes validation exactly when a value of the right type is given |
| `Schema.CheckDefaulted` | shared/schema.ts:10-12 | a column with a default passes exactly when it is absent or given with the right type (`null` is refused) |
| `Schema.CheckNullable` | shared/schema.ts:19 | the nullable description passes unless it has the wrong type |
| `Schema.ParsePrinciple` | shared/schema.ts:24 | the principle body is accepted exactly when title and description are given and category, colour and order are absent or well-typed; a refusal lists at least one issue; an acceptance carries the given values and no id |
| `Schema.ParseTactic` | shared/schema.ts:25 | the tactic body is accepted exactly when principleId and title are given and the others are absent or well-typed (description also `null`); a refusal lists at least one issue |
| `Schema.PrincipleIssues` | shared/schema.ts:24 | no contract of its own; it is the list of issues `Schema.ParsePrinciple` reports, and that contract states when it is empty |
| `Schema.TacticIssues` | shared/schema.ts:25 | no contract of its own; it is the list of issues `Schema.ParseTactic` reports, and that contract states when it is empty |
| `Schema.ParsePrincipleRoundTrip` | shared/schema.ts:24-27 | every `InsertPrinciple`, sent as a body, parses back to itself |
| `Schema.ParseTacticRoundTrip` | shared/schema.ts:25-29 | every `InsertTactic`, sent as a body, parses back to itself |
| `Schema.EmptyTextAccepted` | shared/schema.ts:8-25 | the insert schemas accept empty strings for the required text fields |
| `Schema.PrincipleDefaults` | shared/schema.ts:10-12 | a principle created without category, colour and order gets "general", "blue" and 0 |
| `Schema.TacticDefaults` | shared/schema.ts:20-21 | a tactic created without isEffective and order gets true and 0 |
| `Storage.Consistent` | shared/schema.ts:7-17 | no contract of its own; it is the invariant of the primary keys, the foreign key and the fresh id supply. `Routes.ServeKeepsConsistent`, the `*Effect` lemmas and `Store.Valid()` show that every write keeps it |
| `Storage.TacticsOf` | server/storage.ts:25-32 | the rows `WHERE principle_id = pid` selects are no more than the table; `Storage.TacticsOfMembers`, `Storage.TacticsOfCount` and `Storage.TacticsOfSorted` state which rows they are |
| `Storage.TacticsOfMembers` | server/storage.ts:25 | the tactics selected for a principle are exactly the stored tactics whose principleId is its id |
| `Storage.TacticsNotOf` | server/storage.ts:42 | the cascade keeps exactly the tactics that do not reference the deleted principle |
| `Storage.TacticsExcept` | server/storage.ts:52 | deleting a tactic keeps exactly the tactics with another id |
| `Storage.PrinciplesExcept` | server/storage.ts:43 | deleting a principle keeps exactly the principles with another id |
| `Storage.CascadeSplitsTable` | server/storage.ts:42 | the tactics of a principle and the rest partition the tactics table |
| `Storage.CascadeOnUnreferenced` | server/storage.ts:42 | the cascade deletes nothing when no tactic references the id |
| `Storage.CascadeKeepsKey` | server/storage.ts:42 | the cascade keeps tactic ids unique |
| `Storage.DeleteTacticKeepsKey` | server/storage.ts:52 | deleting a tactic keeps tactic ids unique |
| `Storage.DeleteAbsentTactic` | server/storage.ts:52 | deleting an absent tactic id leaves the table as it was |
| `Storage.DeletePresentTactic` | server/storage.ts:52 | deleting a present tactic id removes exactly one row |
| `Storage.DeletePrincipleKeepsKey` | server/storage.ts:43 | deleting a principle keeps principle ids unique |
| `Storage.DeleteAbsentPrinciple` | server/storage.ts:43 | deleting an absent principle id leaves the table as it was |
| `Storage.DeletePresentPrinciple` | server/storage.ts:43 | deleting a present principle id removes exactly one row |
| `Storage.Group` | server/storage.ts:23-26 | the listing has one entry per principle, in the given order, each with that principle's fields and its tactics |
| `Storage.BasesOfGroup` | server/storage.ts:23-26 | stripping the attached tactics from the grouped listing gives back exactly the principles it was built from, in the same order |
| `Storage.FindPrinciple` | server/storage.ts:30-31 | looking up an id finds nothing exactly when no principle has it, and otherwise finds a stored principle with that id |
| `Storage.GetPrinciple` | server/storage.ts:29-34 | `getPrinciple` returns nothing exactly when the id is absent; otherwise it returns the stored principle with that id and exactly its tactics, in non-decreasing order |
| `Storage.TacticsOfCount` | server/storage.ts:25-32 | selecting a principle's tactics keeps every copy of a matching row and none of the others |
| `Storage.TacticsOfPermutation` | server/storage.ts:22-25 | selecting from a reordered table gives the same tactics, up to order |
| `Storage.TacticsOfSorted` | server/storage.ts:22-25 | filtering tactics already sorted by order keeps them sorted, so each principle's list is in order |
| `Storage.ListedPrinciples` | server/storage.ts:21-23 | the principles in the listing are the table ordered by `order` |
| `Storage.ListedTactics` | server/storage.ts:22-25 | each listed principle carries exactly its own tactics, in non-decreasing order |
| `Storage.GetPrinciplesExact` | server/storage.ts:20-27 | `getPrinciples` lists every stored principle exactly once, in non-decreasing order, each with exactly its own tactics in order, and a principle without tactics with an empty list |
| `Storage.GetPrinciples` | server/storage.ts:20-27 | no contract of its own; `Storage.GetPrinciplesExact`, `Storage.ListedPrinciples` and `Storage.ListedTactics` state what it returns |
| `Storage.ListedIsFound` | server/storage.ts:20-34 | every listed principle can be fetched, with the same fields and the same tactics |
| `Storage.FoundIsListed` | server/storage.ts:20-34 | every principle that can be fetched appears in the listing |
| `Storage.UniqueIdsDetermineRow` | shared/schema.ts:7 | with a primary key, two principles with the same id are the same row |
| `Storage.AppendFreshPrinciple` | server/storage.ts:37 | inserting a principle with a fresh id keeps ids unique and adds exactly that id |
| `Storage.AppendFreshTactic` | server/storage.ts:47 | inserting a tactic with a fresh id keeps ids unique and adds exactly that id |
| `Storage.FetchUnreferenced` | server/storage.ts:29-34 | a principle no tactic references is fetched with an empty tactic list |
| `Storage.AddPrincipleConsistent` | server/storage.ts:36-39 | the new principle's id is in neither table, and the store stays consistent |
| `Storage.CreatePrincipleEffect` | server/storage.ts:36-39 | `createPrinciple` appends exactly one principle with a fresh id and leaves the tactics unchanged; the store stays consistent, and the new principle is fetched back with no tactics |
| `Storage.CreateTacticEffect` | server/storage.ts:46-49 | `createTactic` is refused exactly when the principle does not exist; otherwise it appends exactly one tactic with a fresh id and leaves the principles unchanged; the store stays consistent, and the tactic is among its principle's tactics |
| `Storage.DeletePrincipleEffect` | server/storage.ts:41-44 | after `deletePrinciple` no principle has the id and no tactic references it; exactly the other rows remain, the store stays consistent, and an absent id changes nothing |
| `Storage.DeleteTacticEffect` | server/storage.ts:51-53 | `deleteTactic` keeps every principle and exactly the other tactics, removes one row when the id exists, keeps the store consistent, and an absent id changes nothing |
| `Storage.NewPrinciples` | server/seed.ts:46 | a multi-row insert creates one principle per row |
| `Storage.NewPrinciplesAt` | server/seed.ts:46 | the i-th created principle is the i-th row with the i-th fresh id |
| `Storage.NewTactics` | server/seed.ts:68 | a multi-row insert creates one tactic per row |
| `Storage.NewTacticsAt` | server/seed.ts:68 | the i-th created tactic is the i-th row with the i-th fresh id |
| `Storage.AddPrinciplesSplit` | server/seed.ts:46 | a multi-row principle insert is the first single insert followed by the rest |
| `Storage.AddPrinciplesConsistent` | server/seed.ts:46 | a multi-row principle insert keeps the store consistent |
| `Storage.AddTacticsSplit` | server/seed.ts:68 | a multi-row tactic insert whose parents exist is the first single insert followed by the rest |
| `Storage.AddTacticsConsistent` | server/seed.ts:68 | a multi-row tactic insert that succeeds keeps the store consistent |
| `Storage.AddPrinciple` | server/storage.ts:36-39 | no contract of its own; `Storage.CreatePrincipleEffect` states its effect |
| `Storage.AddTactic` | server/storage.ts:46-49 | no contract of its own; `Storage.CreateTacticEffect` states its effect and when the foreign key refuses it |
| `Storage.RemovePrinciple` | server/storage.ts:41-44 | no contract of its own; `Storage.DeletePrincipleEffect` states its effect |
| `Storage.RemoveTactic` | server/storage.ts:51-53 | no contract of its own; `Storage.DeleteTacticEffect` states its effect |
| `Storage.AddPrinciples` | server/seed.ts:46 | no contract of its own; `Storage.AddPrinciplesSplit` and `Storage.AddPrinciplesConsistent` state its effect |
| `Storage.AddTactics` | server/seed.ts:68 | no contract of its own; `Storage.AddTacticsSplit` and `Storage.AddTacticsConsistent` state its effect |
| `Storage.Store.constructor` | shared/schema.ts:6-22 | a freshly created database: both tables empty, and the store consistent |
| `Storage.Store.CreatePrinciple` | server/storage.ts:36-39 | appends exactly one principle with a fresh id, returns it, leaves the tactics unchanged and keeps the store valid |
| `Storage.Store.CreateTactic` | server/storage.ts:46-49 | fails with a foreign-key error, changing nothing, exactly when the principle is missing; otherwise appends and returns exactly one new tactic; principles never change |
| `Storage.Store.DeletePrinciple` | server/storage.ts:41-44 | afterwards no principle has the id and no tactic references it; the new state is the cascade delete of the old |
| `Storage.Store.DeleteTactic` | server/storage.ts:51-53 | afterwards no tactic has the id and the principles are unchanged; the new state is the delete of the old |
| `Storage.Store.InsertPrinciples` | server/seed.ts:46 | inserts the rows with consecutive fresh ids, returns the created principles and keeps the store valid |
| `Storage.Store.InsertTactics` | server/seed.ts:68 | succeeds exactly when every row's principle exists, inserting them all; otherwise changes nothing |
| `Seed.SeedTacticRows` | server/seed.ts:48-66 | one tactic row per template, each referencing the created principle its template names |
| `Seed.InsertSeedTactics` | server/seed.ts:68 | inserting the tactic rows never changes the principles |
| `Seed.SeedWith` | server/seed.ts:4-68 | seeding an empty store makes its principles exactly the created rows; a non-empty store is returned as it was |
| `Seed.Seeded` | server/seed.ts:4-70 | no contract of its own; it is `Seed.SeedWith` applied to the example set, and `SeedProperties.SeedEmptyStore`, `SeedProperties.SeedSkipsNonEmptyStore` and `SeedProperties.SeedIdempotent` state what it produces |
| `Seed.SeedDatabase` | server/seed.ts:4-70 | the method reads the table, returns early when it is non-empty, and otherwise inserts the principles and then the tactics; the new state is `Seeded` of the old, and the store stays valid |
| `SeedProperties.InsertedRowsOf` | server/seed.ts:68 | the inserted tactics of a principle are as many as the rows that reference it |
| `SeedProperties.SeedRowsOf` | server/seed.ts:48-66 | the rows referencing the k-th created principle are as many as the templates owned by k |
| `SeedProperties.SeedOwnership` | server/seed.ts:49-65 | the thirteen templates belong to the five principles 3, 3, 3, 2 and 2 times |
| `SeedProperties.SeedSkipsNonEmptyStore` | server/seed.ts:5-6 | a store that already has principles is left untouched |
| `SeedProperties.NoPrinciplesNoTactics` | shared/schema.ts:17 | in a consistent store, no principles means no tactics |
| `SeedProperties.SeedRowsHaveParents` | server/seed.ts:49-65 | every seed tactic row references one of the just-created principles, so the second insert cannot fail |
| `SeedProperties.SeedRows` | server/seed.ts:46-68 | seeding an empty store leaves exactly the created tactics and advances the id supply by one per row |
| `SeedProperties.SeedWithConsistent` | server/seed.ts:46-68 | seeding keeps the store consistent |
| `SeedProperties.CreatedIdsDistinct` | server/seed.ts:46 | the principles created by one insert have distinct ids |
| `SeedProperties.CreatedOwnership` | server/seed.ts:48-68 | the k-th created principle receives as many tactics as the templates it owns |
| `SeedProperties.SeedWithOwnership` | server/seed.ts:46-68 | in a seeded store, the k-th created principle has as many tactics as the templates it owns |
| `SeedProperties.SeedEmptyStore` | server/seed.ts:4-68 | seeding an empty consistent store gives a consistent store with exactly 5 principles and 13 tactics, split 3, 3, 3, 2, 2 |
| `SeedProperties.SeedIdempotent` | server/seed.ts:5-68 | seeding twice has the same effect as seeding once, for every store |
| `SeedProperties.InterruptedSeedIsFinal` | server/seed.ts:5-68 | if the store fails between the two inserts, an empty store is left with the five principles and no tactics, and every later seeding leaves that state as it is |
| `SeedProperties.SeedPrincipleOrders` | server/seed.ts:8-44 | the example principles have orders 0 to 4, in sequence |
| `SeedProperties.CreatedInOrder` | server/seed.ts:46 | rows with orders 0, 1, 2, ... are created with exactly those orders, strictly increasing |
| `SeedProperties.SeedWithListingOrder` | server/seed.ts:46 | when an empty store is seeded with rows whose orders are 0, 1, 2, 3, 4, listing returns the principles in the order they were inserted |
| `SeedProperties.SeedListingOrder` | server/seed.ts:8-46 | after seeding an empty store, the principles have orders 0 to 4 and are listed in seed order |
| `SeedProperties.SeedThenDeleteFirst` | server/seed.ts:49-51 | after seeding an empty store and deleting its first principle, 4 principles and 10 tactics remain |
| `Routes.Serve` | server/routes.ts:11-74 | every response has status 200, 201, 204, 400, 404 or 500; a failing request and every read leave the store unchanged; a store fault only ever gives 400 or 500 |
| `Routes.ServeKeepsConsistent` | server/routes.ts:11-74 | no request can break the store's consistency |
| `Routes.ListingPassesThrough` | server/routes.ts:13-14 | listing returns the store's grouped view unchanged, with 200 |
| `Routes.FetchStatus` | server/routes.ts:22-26 | fetching gives 404 with "Principle not found" exactly when no principle has the id; otherwise it gives 200 with that principle and exactly its tactics, in order |
| `Routes.InvalidPrincipleBody` | server/routes.ts:34-40 | a principle body gives 400 exactly when the insert schema refuses it, and then the store is unchanged and the issues are returned |
| `Routes.InvalidTacticBody` | server/routes.ts:56-62 | a tactic body gives 400 exactly when the insert schema refuses it, and then the store is unchanged and the issues are returned |
| `Routes.PrincipleCreated201` | server/routes.ts:34-36 | a valid principle body gives 201 with a new principle that has a fresh id and the given text; the principle is appended and can then be fetched with no tactics |
| `Routes.TacticCreated201` | server/routes.ts:56-58 | a valid tactic body for an existing principle gives 201 with a new tactic that has a fresh id; the tactic is appended and is then among its principle's tactics |
| `Routes.DanglingTacticIs500` | server/routes.ts:56-63 | a well-formed tactic for a missing principle passes validation but is refused by the store, giving 500 with the store unchanged |
| `Routes.DeletePrincipleIs204` | server/routes.ts:45-48 | deleting a principle gives 204 whether or not it existed; afterwards fetching it gives 404 and no tactic references it |
| `Routes.DeleteTacticIs204` | server/routes.ts:67-70 | deleting a tactic gives 204 whether or not it existed and removes exactly that tactic |
| `Routes.EmptyTitleCreated` | server/routes.ts:32-36 | the server creates a principle whose title and description are empty |
| `Routes.Handle` | server/routes.ts:11-74 | the handler leaves the store in the state `Serve` describes, answers with its response, and keeps the store valid |
| `Workspace.FilterCategory` | client/src/pages/workspace.tsx:491-493 | the filter keeps exactly the principles that the selected category shows |
| `Workspace.Shown` | client/src/pages/workspace.tsx:492 | no contract of its own; `Workspace.FilterOne` and `Workspace.FilterAllKeepsEverything` state its effect on the filter |
| `Workspace.Filtered` | client/src/pages/workspace.tsx:491-493 | with no data loaded there is nothing to filter; otherwise it keeps exactly the shown principles |
| `Workspace.FilterAllKeepsEverything` | client/src/pages/workspace.tsx:485-493 | the filter "all" keeps every principle |
| `Workspace.FilterKeepsOrder` | client/src/pages/workspace.tsx:491-493 | filtering distributes over concatenation, so the kept principles stay in their original order |
| `Workspace.FilterOne` | client/src/pages/workspace.tsx:492 | a single principle is kept exactly when the filter is "all" or equals its category |
| `Workspace.Distinct` | client/src/pages/workspace.tsx:496 | building a `Set` keeps exactly the values present and no duplicates |
| `Workspace.DistinctFirstOccurrenceOrder` | client/src/pages/workspace.tsx:496 | the `Set` lists values in the order of their first occurrence |
| `Workspace.Categories` | client/src/pages/workspace.tsx:495-497 | the category list has no duplicates, is empty before the data loads, and contains exactly the categories present |
| `Workspace.CategoryButtonsNonEmpty` | client/src/pages/workspace.tsx:552-573 | every category button selects at least one principle |
| `Workspace.TotalTactics` | client/src/pages/workspace.tsx:499 | the total is 0 when there is no data or an empty list |
| `Workspace.SumTactics` | client/src/pages/workspace.tsx:499 | no contract of its own; `Workspace.SumOfGroup` and `Workspace.TotalIsTableSize` state its value |
| `Workspace.SumOfGroup` | client/src/pages/workspace.tsx:499 | summing the grouped lists counts each principle's own tactics |
| `Workspace.OwnedPermutedPrinciples` | client/src/pages/workspace.tsx:499 | any reordering of the principles, including the sort by `order`, leaves the count unchanged |
| `Workspace.OwnedPermutedTactics` | client/src/pages/workspace.tsx:499 | the count does not depend on the order of the tactics |
| `Workspace.OwnedCountsAll` | client/src/pages/workspace.tsx:499 | when every tactic has its principle, each is counted exactly once |
| `Workspace.TotalIsTableSize` | client/src/pages/workspace.tsx:499 | on a consistent store, `totalTactics` is the size of the tactics table |
| `Workspace.SeededTotal` | client/src/pages/workspace.tsx:499 | after seeding an empty store, the page shows 13 tactics |
| `Workspace.ColorBg` | client/src/pages/workspace.tsx:58-68 | each of the six palette colours gets its own class, distinct from the fallback, and any other string gets the fallback |
| `Workspace.ColorBgSeparates` | client/src/pages/workspace.tsx:58-68 | the fallback class is returned exactly for colours outside the palette, and distinct palette colours get distinct classes |
| `Workspace.SeedColorsInPalette` | server/seed.ts:8-44 | every example principle has a palette colour |
| `Workspace.CreatedColorsInPalette` | client/src/pages/workspace.tsx:45-52 | principles created from rows whose colours are in the palette have palette colours |
| `Workspace.StoredColorsInPalette` | client/src/pages/workspace.tsx:45-68 | the column default "blue" and the colour of every seeded principle are palette colours, so by `Workspace.ColorBg` none of them shows the fallback class |
| `Workspace.TacticPayload` | client/src/pages/workspace.tsx:100-106 | the new-tactic request always passes the insert schema and sends isEffective true and order 0; an empty or missing description is sent as absent |
| `Workspace.TacticFormAccepts` | client/src/pages/workspace.tsx:85-88 | no contract of its own; `Workspace.TacticFormCreates` shows that a title it accepts is non-empty and is created |
| `Workspace.TacticFormCreates` | client/src/pages/workspace.tsx:85-106 | a tactic the form accepts is created with 201 and a non-empty title, and it appears among its principle's tactics |
| `Workspace.PrinciplePayload` | client/src/pages/workspace.tsx:354-355 | the principle form's values parse to exactly themselves as an insert |
| `Workspace.PrincipleFormAccepts` | client/src/pages/workspace.tsx:333-336 | no contract of its own; `Workspace.PrincipleFormCreates` and `Workspace.LimitsAreClientSide` state the limits it enforces |
| `Workspace.PrincipleFormCreates` | client/src/pages/workspace.tsx:333-336 | a principle the form accepts is created with 201, with a title of 1-200 and a description of 1-1000 characters, and it is fetched back with no tactics |
| `Workspace.LimitsAreClientSide` | client/src/pages/workspace.tsx:333-351 | the form refuses its own blank default values, but the server creates the same payload |

## Left out

- `client/src/pages/home.tsx` and `client/src/App.tsx` are not part of this model. They hold static copy, animation, routing and provider wiring, with no logic.
- `server/db.ts` is not part of this model. It covers the connection pool and SSL detection from the environment.
- `api/[...path].ts` is not part of this model. It repeats the handlers and seeding of `server/routes.ts` and `server/seed.ts` for another host.
- Postgres, the ORM and UUID generation are an abstract fresh-id supply (`nextId`). The id columns are `varchar` (shared/schema.ts:7, 16-17), so ids are opaque strings: any id that no row has, whatever its shape, is an absent id in the model. Fetching it gives 404 and deleting it gives 204. A tactic whose `principleId` no principle has is refused by the foreign key, which gives 500 (`Routes.DanglingTacticIs500`).
- Ordering: SQL leaves the order of rows with equal `order` unspecified. The model fixes one order, a stable sort, but its contracts state only non-decreasing order and a permutation.
- `Seed.SeedDatabase`: the model assumes the store does not fail between its two inserts (server/seed.ts:46 and 68). A failure there leaves the five principles without tactics, and every later seeding then returns early (`SeedProperties.InterruptedSeedIsFinal`). The method's contract states only the uninterrupted run.
- A store fault (`storeUp == false` in `Routes.Serve`) also stands for data Postgres refuses, such as a text value containing U+0000. `Routes.PrincipleCreated201`, `Routes.TacticCreated201` and `Routes.EmptyTitleCreated` assume the store accepts the row.
- `deletePrinciple` runs two statements (server/storage.ts:42-43), not a transaction. The model performs both as one atomic step. Concurrency between requests, including two seedings racing on an empty table, is not modelled.
- `order` is a 32-bit column and JSON numbers may be fractional. The model uses unbounded integers, so the insert schema's integer range check and refusal of non-integers are not modelled.
- String lengths in the form limits count UTF-16 code units. The model counts Dafny characters.
- `getColorBg` indexes a plain object, so a prototype key such as "constructor" would not reach the fallback. The model treats only the six palette keys as present.
- The "Avg Tactics" figure (client/src/pages/workspace.tsx:541-546) is floating-point division formatted with `toFixed`, and is not modelled.
- React state, hooks, mutations, toasts, query-cache invalidation, JSX and animation are not modelled. So are Express plumbing and JSON serialisation beyond status and payload, and the console log at server/seed.ts:69. The call site that triggers seeding is not modelled either.
- zod's error texts and codes are reduced to the issue's path and kind (required or invalid type).
- The principle form's default category is "General" (client/src/pages/workspace.tsx:347), while the column default is "general". The model keeps both values as written.
- `Storage.TacticsOf`: its contract gives only the length bound. Its membership property is stated separately as `Storage.TacticsOfMembers`.
- `Workspace.TotalTactics`: its contract states only the empty cases. Its value is related to the store by `Workspace.SumOfGroup` and `Workspace.TotalIsTableSize`.
