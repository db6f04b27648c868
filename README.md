# CRM core in Dafny

A model of the core of a small CRM web application built on Next.js and Prisma. It covers contacts, deals in a sales pipeline, tasks and activities. The model has four parts:

- **The HTTP handlers** under `app/api/*/route.ts`. Each handler validates a JSON body, checks references and then writes to the database. Each is a method that takes the database state (`Domain.Db`: four maps from id to record) and the request. It returns the reply (`Ok` with the record, or `Err` with status code and message) and the new database state. The JSON body is a map from key to `Json.Value`, and an absent key stands for `undefined`. JavaScript truthiness is written out (`Json.Truthy`). Every validator is proved to pass exactly when its rules hold. Every handler's contract gives each error status and message, and says that an error leaves the database unchanged. It also states the record written on success, and which invariants the write preserves. These are unique emails, valid deal stages and non-negative values, plus references to stored rows for the handlers that create or change a reference. A delete is proved to keep references intact only when no row refers to the deleted one, because what the database does to such rows is not modelled.
- **The client cache store** `lib/store/store.ts`. It is a class, `Store.CrmStore`, whose fields are the four cached lists and the search term. Each action takes the server's reply as a parameter. Its contract gives the new list (append, replace by id or remove by id) and the message it throws. The actions that build a request body from their arguments also give that body: the four updates, `moveDeal`, `toggleTaskStatus` and `deleteActivity`. The task status cycle TODO → IN_PROGRESS → DONE → TODO is proved to be a 3-cycle.
- **The page computations**:
  - the dashboard figures (`app/page.tsx`);
  - the pipeline board's search filter, its columns per stage (filled by a loop), the column totals and the drag-end rules (`app/pipeline/page.tsx`);
  - the list filters and the id → name lookups of the tasks and activities pages.
- **The one-off task migration** `app/api/tasks/migrate/route.ts`. It maps legacy statuses and priorities to the new values, and the mapping is proved idempotent.

Inputs the code reads from its environment are passed in as parameters:
- fresh ids;
- the current time;
- the parsing of a date string into a timestamp;
- the server's reply to each store action.

Behaviour the model follows exactly as the code has it:
- Emails are proved unique only among non-empty emails. Contact PATCH checks the email rule only for a truthy email, so the handlers themselves let several contacts have an empty email. Whether the database schema also has a unique index on the column is not part of this model.
- PATCH and DELETE of an unknown activity id give the generic 500 reply, not 404. The activities route has no not-found branch.
- Deal PATCH checks that the deal exists before it checks the stage. It writes any string stage, the empty one included, because the stage check applies only to a truthy stage.
- Activity PATCH is a full overwrite, not a partial update. Every field the body omits is reset to its create default.
- Task PATCH skips the contact lookup for an empty `contactId` and then writes `""` as the link. The database refuses a link to no contact, so the model replies 500, just as it does for activities.

## Model

| member | source | states |
|---|---|---|
| TaskRoute.CreateModeCheck | app/api/tasks/route.ts:6-19 | create mode passes exactly when title and dueDate are non-empty strings, and status and priority are members of their enums |
| TaskRoute.UpdateModeCheck | app/api/tasks/route.ts:20-32 | update mode passes exactly when each present field has the right type, and a present status or priority is in its enum |
| TaskRoute.ValidateTaskData | app/api/tasks/route.ts:5-42 | passes exactly when the mode's rules and the description and contactId rules (null allowed) all hold |
| TaskRoute.CreateNeedsTitle | app/api/tasks/route.ts:7-9 | in create mode, a missing, empty or non-string title is the first error reported |
| TaskRoute.CreateRefusesLowercasePriority | app/api/tasks/route.ts:16-18 | "medium" is refused: enum membership is exact |
| TaskRoute.UpdateAllowsEmpty | app/api/tasks/route.ts:5-42 | an empty body passes update mode and fails create mode on its title |
| TaskRoute.PostTask | app/api/tasks/route.ts:65-113 | gives 400 with the validator's message and 404 for a contactId that is not stored; succeeds exactly when neither applies; writes the body's own title, due date, status, priority, description and contactId (null for a falsy description or contactId); preserves well-formedness and task links |
| TaskRoute.ApplyTaskUpdate | app/api/tasks/route.ts:159-165 | each field the body names takes the body's value and every other field keeps its old value |
| TaskRoute.PatchTask | app/api/tasks/route.ts:115-183 | checks in order: 400 for no id, 400 for failed validation, 500 for a non-string id, 404 for an unknown task, 404 for an unknown contact, 500 for an empty contactId that names no contact; then a partial write and nothing else; preserves well-formedness and task links |
| TaskRoute.UpdateTaskById | app/api/tasks/route.ts:146-183 | 404 for an unknown non-empty contactId, 500 when the database refuses an empty link, otherwise the partial write; succeeds exactly when neither error applies; keeps task links |
| TaskRoute.PatchKeepsTasksLinked | app/api/tasks/route.ts:146-173 | a write the contact rules let through keeps every task's contact stored |
| TaskRoute.PatchWithOnlyIdChangesNothing | app/api/tasks/route.ts:159-169 | an update built from an empty body leaves the task as it was |
| TaskRoute.NullContactClearsLink | app/api/tasks/route.ts:147-165 | a null contactId skips the contact lookup and clears the task's link |
| TaskRoute.DeleteTask | app/api/tasks/route.ts:185-215 | gives 400 for a missing or empty id and 404 for an unknown one; otherwise removes exactly that task; task links are kept |
| ContactRoute.ValidateContactData | app/api/contacts/route.ts:7-38 | passes exactly when the mode's name and email rules and the truthy-only phone, company, position and status rules hold |
| ContactRoute.EmptyNameOnlyPassesUpdate | app/api/contacts/route.ts:9-23 | empty name and email strings pass update mode and fail create mode |
| ContactRoute.StatusCheckedOnlyWhenTruthy | app/api/contacts/route.ts:34-36 | a falsy status is never checked; "Active" is refused |
| ContactRoute.WriteKeepsEmailsUnique | app/api/contacts/route.ts:77-88 | writing a contact whose non-empty email no other contact has keeps emails unique |
| ContactRoute.NotTaken | app/api/contacts/route.ts:77-80 | if the duplicate-email lookup finds nothing, no other contact has that email |
| ContactRoute.CreateKeepsEmailsUnique | app/api/contacts/route.ts:76-88 | creating a contact whose email the duplicate lookup did not find keeps emails unique |
| ContactRoute.PostContact | app/api/contacts/route.ts:63-112 | gives 400 for failed validation and 400 for a taken email; succeeds exactly otherwise; the new contact gets status "active" unless a truthy one is given, and the body's own phone, company and position, each null when falsy; emails stay unique |
| ContactRoute.ApplyContactUpdate | app/api/contacts/route.ts:156-158 | each column the body names takes the body's value and the others keep theirs |
| ContactRoute.PatchKeepsEmailsUnique | app/api/contacts/route.ts:137-158 | a PATCH the email rule lets through keeps emails unique |
| ContactRoute.UpdateContactById | app/api/contacts/route.ts:137-177 | gives 400 for an email another contact has, 404 for an unknown id and 500 for an unstorable value; otherwise the partial write; keeps well-formedness and unique emails |
| ContactRoute.PatchContact | app/api/contacts/route.ts:114-180 | gives 400 for no id, then the validator's 400 (only when the body has more than the id), then the update |
| ContactRoute.ValidatingNothingPasses | app/api/contacts/route.ts:127-128 | validating a body that holds only the id would pass anyway |
| ContactRoute.DeleteContact | app/api/contacts/route.ts:182-212 | gives 400 for a missing or empty id and 404 for an unknown one; otherwise removes exactly that contact; emails stay unique; task, deal and activity links are kept when nothing refers to the contact |
| PipelineRoute.ValidateDealData | app/api/pipeline/route.ts:7-21 | passes exactly when the title is a non-empty string, the value is absent or a number ≥ 0, a truthy stage is one of the four, and a truthy contactId is a string |
| PipelineRoute.NullValueRefused | app/api/pipeline/route.ts:11-13 | a null value is refused although it is falsy |
| PipelineRoute.ValueOf | app/api/pipeline/route.ts:73 | the stored value is the body's number, or 0 when the body has none |
| PipelineRoute.PostDeal | app/api/pipeline/route.ts:44-90 | gives 400 and 404 as the route does; the deal has stage "lead" unless a stage is given and the body's own contactId, null unless it is truthy; preserves valid stages, non-negative values and deal links |
| PipelineRoute.PatchDeal | app/api/pipeline/route.ts:92-140 | gives 400 for no id, 404 for an unknown deal, 400 for a truthy unknown stage and 500 for a non-string id or stage; only the stage changes, and an absent stage changes nothing |
| PipelineRoute.DeleteDeal | app/api/pipeline/route.ts:142-177 | gives 400 for no id, 500 for a non-string id and 404 for an unknown id; otherwise removes exactly that deal; preserves valid stages, non-negative values and deal links, and keeps activity links when no activity refers to the deal |
| ActivityRoute.ValidateActivityData | app/api/activities/route.ts:7-24 | passes exactly when the type is email, call or meeting and each truthy optional field is a string |
| ActivityRoute.TypeReportedFirst | app/api/activities/route.ts:8-16 | any type other than email, call or meeting (missing, non-string or unknown) is the error reported, whatever else the body has wrong |
| ActivityRoute.ActivityFrom | app/api/activities/route.ts:62-69 | description defaults to "", date to now, and contact and deal ids to null; given values are kept |
| ActivityRoute.PostActivity | app/api/activities/route.ts:48-84 | gives 400 for failed validation and 500 for a reference to a row that is not stored; succeeds exactly otherwise; keeps activities linked |
| ActivityRoute.PatchActivity | app/api/activities/route.ts:86-131 | gives 400 for no id and 400 for failed validation; 500 for a bad or unknown id or a missing reference; otherwise a full overwrite |
| ActivityRoute.PatchResetsOmittedFields | app/api/activities/route.ts:108-116 | a field the PATCH body leaves out gets its create default |
| ActivityRoute.DeleteActivity | app/api/activities/route.ts:133-157 | gives 400 for no id and 500 for a bad or unknown id; otherwise removes exactly that activity |
| Store.ThrownMessage | lib/store/store.ts:262-265 | the thrown message is the server's message, or the fallback when that is empty |
| Store.WithId | lib/store/store.ts:139 | the request body carries the id and every other field unchanged |
| Store.NextStatus | lib/store/store.ts:340-344 | the next status is always one of the three |
| Store.StatusCycle | lib/store/store.ts:340-344 | three toggles return to the start, a toggle never stays put, and an unknown status goes to TODO |
| Store.CrmStore.constructor | lib/store/store.ts:55-60 | every list is empty and the search term is "" |
| Store.CrmStore.SetSearchTerm | lib/store/store.ts:107 | only the search term changes |
| Store.CrmStore.FetchContacts | lib/store/store.ts:63-73 | the list becomes the server's list, or stays as it was on error |
| Store.CrmStore.FetchDeals | lib/store/store.ts:74-84 | the list becomes the server's list, or stays as it was on error |
| Store.CrmStore.FetchTasks | lib/store/store.ts:85-95 | the list becomes the server's list, or stays as it was on error |
| Store.CrmStore.FetchActivities | lib/store/store.ts:96-105 | the list becomes the server's list, or stays as it was on error |
| Store.CrmStore.AddContact | lib/store/store.ts:110-126 | appends the created contact, or throws "Failed to create contact" and changes nothing |
| Store.CrmStore.UpdateContact | lib/store/store.ts:128-159 | an empty id throws before any request; otherwise sends `{id, ...fields}` and replaces every entry with that id on success |
| Store.CrmStore.DeleteContact | lib/store/store.ts:161-179 | on success removes every entry with that id and keeps the rest in order |
| Store.CrmStore.AddDeal | lib/store/store.ts:182-198 | appends the created deal, or throws "Failed to create deal" |
| Store.CrmStore.UpdateDeal | lib/store/store.ts:200-218 | sends `{id, ...fields}` and replaces every entry with that id on success |
| Store.CrmStore.DeleteDeal | lib/store/store.ts:220-231 | on success removes every entry with that id |
| Store.CrmStore.MoveDeal | lib/store/store.ts:233-251 | sends `{id, stage}` and replaces the entry with the returned deal, or throws "Failed to move deal" |
| Store.CrmStore.AddTask | lib/store/store.ts:254-277 | appends and returns the created task, or throws the server's message |
| Store.CrmStore.UpdateTask | lib/store/store.ts:279-310 | an empty id throws "Task ID is required"; otherwise sends `{id, ...fields}` and replaces on success |
| Store.CrmStore.DeleteTask | lib/store/store.ts:312-330 | on success removes every entry with that id |
| Store.CrmStore.ToggleTaskStatus | lib/store/store.ts:332-353 | "Task not found" for an id that is not cached; otherwise requests the next status in the cycle and stores the reply |
| Store.CrmStore.AddActivity | lib/store/store.ts:356-373 | appends the created activity; an error changes nothing |
| Store.CrmStore.UpdateActivity | lib/store/store.ts:375-394 | sends `{id, ...fields}` and replaces on success; an error changes nothing |
| Store.CrmStore.DeleteActivity | lib/store/store.ts:396-412 | sends `{id}` and removes every entry with that id on success |
| Store.ReplaceThenFind | lib/store/store.ts:148-152 | an update by id brings in no entry but the reply; when the id was cached and the reply keeps it, finding by that id afterwards gives the reply |
| Store.RemoveThenAppend | lib/store/store.ts:172-174 | a delete keeps the other entries in their order |
| Dashboard.InsertByDue | app/page.tsx:33 | inserting into a list sorted by due date keeps it sorted and adds exactly one task |
| Dashboard.SortByDue | app/page.tsx:33 | the result is sorted by due date and is a permutation of the input |
| Dashboard.PrefixIsEarliest | app/page.tsx:33-34 | a prefix of a list sorted by due date holds tasks due no later than every task it leaves out |
| Dashboard.EarliestFive | app/page.tsx:33-34 | the first five of a sorted permutation of the open tasks are open tasks, none taken more often than it occurs, due no later than the rest |
| Dashboard.UpcomingTasks | app/page.tsx:31-34 | exactly min(5, number of open tasks) tasks, all not DONE and sorted by due date, a sub-multiset of the open tasks (no task repeated); every open task left out is due no earlier than every task shown |
| Dashboard.DashboardStats | app/page.tsx:26-34 | contact count; open deals plus closed deals equal all deals; the total value is the sum over all deals and equals the open value plus the closed value; pending is the number of TODO tasks, at most the open tasks; the first five activities; the upcoming tasks |
| Dashboard.TotalValue | app/page.tsx:28 | an empty list is worth 0, and non-negative values give a non-negative total |
| Dashboard.TotalValueSplits | app/page.tsx:27-28 | the total is the open value plus the closed value |
| Dashboard.PendingCountsTodoOnly | app/page.tsx:29 | one more task raises the pending count exactly when its status is TODO |
| Dashboard.EmptyDashboard | app/page.tsx:26-34 | empty lists give zero figures |
| Dashboard.TwoDealScenario | app/page.tsx:27-28 | a lead worth 100 and a closed deal worth 50 give value 150 and one open deal |
| PipelinePage.Contains | app/pipeline/page.tsx:76 | `includes` is true exactly when the pattern occurs at some offset |
| PipelinePage.FilteredDeals | app/pipeline/page.tsx:75-77 | keeps exactly the deals whose lower-cased title contains the lower-cased term |
| PipelinePage.EmptyTermKeepsAll | app/pipeline/page.tsx:75-77 | an empty term keeps every deal in order |
| PipelinePage.SearchIgnoresCase | app/pipeline/page.tsx:76 | "ACME" finds "acme renewal" |
| PipelinePage.Column | app/pipeline/page.tsx:80-81 | a column holds exactly the filtered deals in that stage |
| PipelinePage.DealsByStage | app/pipeline/page.tsx:79-82 | one column per stage, each equal to that stage's filtered deals in order |
| PipelinePage.ColumnsDisjoint | app/pipeline/page.tsx:79-82 | a deal is in at most one column, and a deal whose stage is not one of the four is in no stage column |
| PipelinePage.ColumnsCover | app/pipeline/page.tsx:79-82 | with valid stages, the column sizes add up to the number of filtered deals |
| PipelinePage.ColumnTotalsAddUp | app/pipeline/page.tsx:79-85 | with valid stages, the four column totals add up to the filtered total |
| PipelinePage.ActivitiesForDeal | app/pipeline/page.tsx:87-89 | exactly the activities linked to the deal |
| PipelinePage.CardActivities | app/pipeline/page.tsx:205 | the first three of the deal's activities, or all of them when there are fewer, in order |
| PipelinePage.DragDecision | app/pipeline/page.tsx:52-64 | a drop with no destination, or onto the same place, is ignored; any other drop moves the deal to the destination column |
| PipelinePage.ReorderStillMoves | app/pipeline/page.tsx:59-66 | a reorder within one column still sends a move to the same stage |
| PipelinePage.HandleDragEnd | app/pipeline/page.tsx:52-73 | an ignored drop sends nothing and changes nothing; a move sends `{id: draggableId, stage: destination column}`, updates the deal list as moveDeal does, and a failure sets the page error |
| PipelinePage.MoveScenario | app/pipeline/page.tsx:52-82 | moving a lead to proposal empties the lead column and fills the proposal column |
| Migrate.MigratedStatus | app/api/tasks/migrate/route.ts:11-13 | completed becomes DONE, pending becomes TODO, null or empty becomes TODO, and anything else is kept |
| Migrate.MigratedPriority | app/api/tasks/migrate/route.ts:15 | null or empty becomes MEDIUM, and anything else is kept, lowercase included |
| Migrate.MappingIdempotent | app/api/tasks/migrate/route.ts:11-15 | mapping a mapped status or priority changes nothing |
| Migrate.Migration | app/api/tasks/migrate/route.ts:10-31 | one update per task, in order and with the same id, carrying that task's mapped status and priority; every status is a valid one or the legacy value kept; the report counts the tasks |
| Migrate.MigrationIdempotent | app/api/tasks/migrate/route.ts:10-24 | migrating the migrated tasks issues the same updates again |
| Migrate.LowercasePriorityKept | app/api/tasks/migrate/route.ts:15 | "medium" survives the migration |
| ListViews.Shown | app/tasks/page.tsx:24-27 | "all" keeps the list; a value keeps exactly the records with that value |
| ListViews.ShownAppend | app/tasks/page.tsx:24-27 | filtering keeps the order: the filtered concatenation is the concatenation of the filtered parts |
| ListViews.ThreeFiltersCover | app/tasks/page.tsx:24-27 | when every value is one of three, the three filters split the list |
| ListViews.ContactName | app/tasks/page.tsx:29-33 | "" for a null, empty or unknown id; otherwise the name of the first contact with that id (the activities page has the same function at lines 53-57) |
| ListViews.DealTitle | app/tasks/page.tsx:35-39 | "" for a null, empty or unknown id; otherwise the title of the first deal with that id (the activities page has the same function at lines 59-63) |
| TasksPage.FilteredTasks | app/tasks/page.tsx:24-27 | "all" returns every task in order; a status returns exactly the tasks with that status |
| TasksPage.StatusFiltersCover | app/tasks/page.tsx:24-27 | with valid statuses, the three status lists together hold every task |
| TasksPage.UnknownStatusShowsNothing | app/tasks/page.tsx:26 | a filter on a status no task has shows nothing |
| TasksPage.StatusColor | app/tasks/page.tsx:46-57 | an unknown status gets the grey default, and a known one never does |
| TasksPage.StatusColorsDistinct | app/tasks/page.tsx:46-57 | no two statuses share a colour |
| TasksPage.StatusIconOf | app/tasks/page.tsx:59-70 | TODO and unknown statuses get the cross, IN_PROGRESS the clock, DONE the check |
| TasksPage.PriorityColor | app/tasks/page.tsx:72-83 | MEDIUM is orange and HIGH is red; LOW and anything else is grey |
| TasksPage.LowercaseMediumLooksLow | app/tasks/page.tsx:72-83 | "medium" is drawn like LOW, not like MEDIUM |
| ActivitiesPage.FilteredActivities | app/activities/page.tsx:49-51 | "all" keeps every activity in order; a type keeps exactly the activities of that type |
| ActivitiesPage.TypeFiltersCover | app/activities/page.tsx:49-51 | with valid types, the email, call and meeting lists together hold every activity |
| ActivitiesPage.ActivityColor | app/activities/page.tsx:17-21 | a colour exists exactly for the three types |
| ActivitiesPage.ActivityColorsDistinct | app/activities/page.tsx:17-21 | no two types share a colour |

## Left out

- Prisma, `fetch`, `NextResponse` and JSON parsing: the database is a map per table, a reply is a `Response` value, and a body is an already parsed map. A body that is not JSON is not modelled.
- The GET handlers and the order in which the database returns rows: a fetched list is whatever the server replies.
- The dashboard stats route `app/api/dashboard/stats/route.ts` is not part of this model. The dashboard page computes its own figures, and those are modelled.
- Dates: the current time and the parsing of a date string are parameters. An invalid date string is not modelled.
- TaskRoute.ValidateTaskData: does not model the `instanceof Date` branch, because a parsed JSON body never holds a Date.
- Numbers are integers: floating-point deal values and `toLocaleString` formatting are not modelled.
- PipelinePage.FilteredDeals: lower-cases ASCII letters only; Unicode case mapping is not modelled.
- Dashboard.SortByDue: the stability of `Array.prototype.sort` among tasks due at the same time is not proved.
- PipelineRoute.PostDeal: a POST without a value stores 0, which is taken to be the column's default (the database schema is not part of this model).
- ContactRoute.PatchContact: only the six modelled columns are written; other keys in the body are not modelled.
- The deal DELETE handler reads the id from the JSON body, while the store's `deleteDeal` sends it in the query string. `PipelineRoute.DeleteDeal` models the handler as written, given a parsed body. How the id travels is not modelled.
- PipelineRoute.DeleteDeal: what the database does to activities that refer to the deal (cascade, set null or refusal) is not modelled, because the schema is not part of this model. So activity links are promised only when no activity refers to the deal; otherwise the model leaves them dangling.
- ContactRoute.DeleteContact: the same holds for tasks, deals and activities that refer to the deleted contact. Links are promised only when nothing refers to it.
- Store.NextStatus: the source looks the status up in an object literal, so a stored status that names an inherited `Object.prototype` member (such as "constructor" or "toString") gets a truthy inherited value instead of "TODO". The model maps every status outside the three to "TODO".
- ActivitiesPage.ActivityColor: the same lookup applies to `activityColors[activity.type]`. A type that names an inherited `Object.prototype` member gets a truthy value in the source, while the model gives no colour.
- Concurrency: `Promise.all`, races between requests, and a contact deleted between a check and a write.
- Store.CrmStore.UpdateContact: does not return the updated record, which is the server's reply the caller already holds; the same goes for Store.CrmStore.UpdateTask. Logging to the console is not modelled in any action.
- Store.CrmStore.UpdateContact: the merge `{ ...c, ...updated }` is modelled as a replacement, because the server returns the whole record.
- Migrate.Migration: the report's message text is not modelled; only the count it is built from is.
- The React components, modals, seed script, layout and icon rendering (the activity icons map is not modelled; its colours are).
