# VuDL editing core in Dafny

This project models the editing core of VuDL, a digital-library administration tool. The model covers five parts:

- **The client editor cache** (`EditorCache`). This is the reducer behind the editor context. It holds object details, parent details, child lists keyed by `pid_page_pageSize`, child counts and 19 plain settings. The module also has the parent-count lookup and the cache-eviction actions.
- **Client-side state propagation and relinking** (`StatePropagation`). Class `Editor` holds the cache state and the trace of network requests and snackbar messages. It covers:
  - saving a new state for one object, for one page of children, and for every child page by page, before the object itself;
  - attaching, detaching and moving an object, each followed by the cache evictions the source performs.
- **The edit routes of the API**, as the route tests pin down their behaviour (`EditRoutes`, `EditProperties`, `Hierarchy`):
  - Each handler is a pure `Plan`: the lookups it makes, then either a rejection with a status and message, or the writes to carry out.
  - `Perform` carries out writes in order against a store and stops at the first one that throws.
  - Class `Repository` runs a plan imperatively and logs every call.
  - `Hierarchy` is the parent graph, the ancestor tree the API returns, and reachability. The route's "own grandparent" guard is stated against reachability, and acyclicity is preserved by every accepted attach, move and detach.
- **The datastream-operation hook** (`DatastreamOps`):
  - the MIME type check against the catalog;
  - the upload, delete, download, view and fetch operations, as a trace of effects (fetches, reloads, snackbar notices, modal closes, saved files) kept by class `DatastreamPanel`;
  - Content-Disposition filename parsing and Content-Type handling.
- **The PDF generation job** (`GeneratePdf`):
  - the IIIF manifest checks, and the page-by-page image fetch that stops at the first bad status;
  - the OCR command and the filing of the new PDF under a fresh document list, as a sequence of effects returned by class `PdfGenerator`.
- **Authentication** (`Authentication`):
  - the legal-username rule, the local and SAML verify callbacks against an abstract user database, and the session serialisation round trip;
  - the choice of passport strategy from configuration.

`Strings` supplies JavaScript's `indexOf`, `includes`, `split`, `join`, decimal printing and `parseInt`, with their properties proved. `Wrappers` supplies `Option` and `Result`.

Some things outside the model become oracles passed in as parameters:

- the network: the replies to each request in the client, and the Fedora/Solr faults and query answers in the routes;
- the password digest;
- the user database;
- the image and manifest fetchers of the PDF job.

## Model

| member | source | states |
|---|---|---|
| EditorCache.InitialStateIsComplete | client/context/EditorContext.tsx:83-107 | The initial state has an entry for each of the 19 settings and nothing else, with the source's defaults; all storage maps start empty |
| EditorCache.RetainKeys | client/context/EditorContext.tsx:209-220 | The loop keeps exactly the child-list keys that do not start with the pid's prefix, each with its old value |
| EditorCache.AddObjectDetailsWritesOneKey | client/context/EditorContext.tsx:146-155 | Adding object details sets that one pid's entry and leaves every other part of the state unchanged |
| EditorCache.RemoveObjectDetailsDeletesOneKey | client/context/EditorContext.tsx:156-165 | Removing a pid deletes only that pid from object details and keeps the other keys |
| EditorCache.RemoveParentDetailsDeletesOneKey | client/context/EditorContext.tsx:179-188 | Removing a pid from parent details deletes only that key, keeps every other entry and changes no other part of the state |
| EditorCache.AddChildListWritesOneKey | client/context/EditorContext.tsx:189-198 | Storing a child-list page sets that one key to the page, keeps every other entry and changes no other part of the state |
| EditorCache.AddChildCountsWritesOneKey | client/context/EditorContext.tsx:199-208 | Storing child counts sets that one key to the counts, keeps every other entry and changes no other part of the state |
| EditorCache.AddParentDetailsWritesOneSlot | client/context/EditorContext.tsx:166-178 | Storing a parent tree writes only the shallow or the deep slot of that pid, keeping the other slot |
| EditorCache.ParentCountPrefersShallow | client/context/EditorContext.tsx:698-703 | The parent count comes from the shallow tree when one is cached, else from the deep tree, else there is none (null); an uncached pid has none |
| EditorCache.ParentCountAfterAdd | client/context/EditorContext.tsx:166-178 | A stored shallow tree gives the pid the count of its parents; storing a full tree afterwards does not change that count; removing the pid's entry leaves none |
| EditorCache.ClearChildListKeepsOthers | client/context/EditorContext.tsx:209-220 | Clearing a pid's child lists removes exactly the keys with that pid's prefix and nothing else in the state |
| EditorCache.ClearChildListRemovesEveryPage | client/context/EditorContext.tsx:373-375 | Every page key built for the pid is gone after its lists are cleared |
| EditorCache.ClearChildListSparesOtherPids | client/context/EditorContext.tsx:373-375 | A page key of a different pid containing no `_` survives the clearing |
| EditorCache.OtherPidKeyUnprefixed | client/context/EditorContext.tsx:373-375 | A different `_`-free pid's page key never starts with the cleared pid's prefix |
| EditorCache.ClearChildCountsRemovesOneKey | client/context/EditorContext.tsx:227-238 | Clearing child counts deletes only that pid's counts entry |
| EditorCache.ResetChildListEmptiesListsOnly | client/context/EditorContext.tsx:221-226 | Reset empties the child-list storage and keeps every other part |
| EditorCache.SetterWritesOneSetting | client/context/EditorContext.tsx:239-247 | A setter action writes its one setting and nothing else; an unrecognized action leaves the state unchanged |
| EditorCache.SetterTypeInjective | client/context/EditorContext.tsx:120-140 | No two settings share a `SET_*` type string |
| EditorCache.FindSetter | client/context/EditorContext.tsx:120-140 | The lookup finds a listed setting whose type is the given string, or reports that no listed setting has it |
| EditorCache.SetterField | client/context/EditorContext.tsx:120-140 | `reducerMapping[type]` names a setting whose type is `type`, or none when no setting has that type |
| EditorCache.SetterFieldOfType | client/context/EditorContext.tsx:120-140 | The mapping covers every setting, and each setter's type names exactly its own setting |
| EditorCache.SetterAction | client/context/EditorContext.tsx:239-247 | A type listed in the mapping becomes a write of its setting with the payload unchanged; any other type is unrecognized |
| EditorCache.SetterDispatchWrites | client/context/EditorContext.tsx:239-243 | Dispatching a setter's type writes that setting to the payload and changes nothing else |
| EditorCache.SetterDispatchIgnores | client/context/EditorContext.tsx:244-247 | Dispatching a type that no setting has leaves the state as it was |
| StatePropagation.Editor.constructor | client/context/EditorContext.tsx:83-107 | A new editor starts from the initial state with an empty trace |
| StatePropagation.Editor.UpdateSingleObjectState | client/context/EditorContext.tsx:567-576 | Sends the PUT of the state after the "Saving status" message; on "ok" evicts the object's details, otherwise yields the error text |
| StatePropagation.Editor.SaveObjectStateForChildPage | client/context/EditorContext.tsx:578-585 | Saves each child of a page in order with the remaining count decreasing, stopping at the first failure; result and state match PageRun |
| StatePropagation.Editor.ApplyChildPage | client/context/EditorContext.tsx:587-597 | One round: fetch the next page of 1000 child ids, save them, advance the found count |
| StatePropagation.Editor.ApplyObjectStateToChildren | client/context/EditorContext.tsx:587-597 | Pages through the children until the expected total is reached, or until the first failure |
| StatePropagation.Editor.UpdateObjectState | client/context/EditorContext.tsx:607-615 | Children first, when any are expected; then the object itself; the snackbar result matches UpdateRun |
| StatePropagation.Editor.AttachObjectToParent | client/context/EditorContext.tsx:624-641 | Sends one PUT with the position and returns the reply text or the error's message; on "ok" drops the child's details and parent trees and the parent's child-list pages; otherwise the state is unchanged |
| StatePropagation.Editor.DetachObjectFromParent | client/context/EditorContext.tsx:649-666 | Sends one DELETE with the same eviction on "ok" |
| StatePropagation.Editor.MoveObjectToParent | client/context/EditorContext.tsx:675-691 | Sends one POST with the position; on "ok" drops the child's details and parent trees and empties every child list; otherwise the state is unchanged |
| StatePropagation.PageRunNext | client/context/EditorContext.tsx:578-585 | The page run over one more id is one more step from the previous run |
| StatePropagation.PageRunStopsAtFailure | client/context/EditorContext.tsx:578-585 | Once a save fails, the later ids of the page are not attempted |
| StatePropagation.PageWritesAt | client/context/EditorContext.tsx:567-585 | On success the k-th child gets the message with total-(found+k) remaining, then its PUT, in that order |
| StatePropagation.PageWritesLength | client/context/EditorContext.tsx:578-585 | A successful page gives two events per child |
| StatePropagation.PageWritesSnoc | client/context/EditorContext.tsx:578-585 | The events of a page with one more child are one pair more |
| StatePropagation.WritesAppend | client/context/EditorContext.tsx:567-576 | The PUT targets of a concatenated trace are the concatenated targets |
| StatePropagation.WritesOfPage | client/context/EditorContext.tsx:578-585 | A successful page PUTs exactly the page's ids, in order |
| StatePropagation.PageRunSucceedsIff | client/context/EditorContext.tsx:578-585 | A page run succeeds iff every child's PUT answers "ok" |
| StatePropagation.EvictAllSnoc | client/context/EditorContext.tsx:156-165 | Evicting one more pid is one more removal action |
| StatePropagation.PageRunSucceeds | client/context/EditorContext.tsx:578-585 | A successful page has the page's events, and evicts every child's details |
| StatePropagation.PageRunFails | client/context/EditorContext.tsx:578-585 | A failing page has a first failing child: all before it succeeded, and the error is that child's |
| StatePropagation.PageRunHasNoQueries | client/context/EditorContext.tsx:578-585 | Saving a page issues no child-id queries |
| StatePropagation.ChildrenRunQueries | client/context/EditorContext.tsx:587-597 | Every page query asks for the object's children with page size 1000, at an offset below the total, and each query's offset is the starting offset plus the number of states written before it |
| StatePropagation.ChildrenRunPaced | client/context/EditorContext.tsx:578-597 | Across pages, each query's offset and each "Saving status" message's remaining count follow from the number of states already written |
| StatePropagation.ChildrenRunWritesPages | client/context/EditorContext.tsx:578-597 | A successful propagation writes exactly the ids of the successive pages, in order, none skipped and none twice |
| StatePropagation.PacedAppend | client/context/EditorContext.tsx:587-597 | A paced trace followed by a trace paced from the count written so far is paced |
| StatePropagation.PacedPageWrites | client/context/EditorContext.tsx:578-585 | The writes of one page count down the remaining number by one per child |
| StatePropagation.RoundPaced | client/context/EditorContext.tsx:587-597 | One round queries at the found count and then writes its page paced; on success it writes as many states as the page has ids |
| StatePropagation.RoundWrites | client/context/EditorContext.tsx:587-597 | A round over a page whose saves all succeed writes exactly the page's ids |
| StatePropagation.ChildrenRunCoversTotal | client/context/EditorContext.tsx:587-597 | A successful propagation saves at least the expected number of children |
| StatePropagation.UpdateWithoutChildren | client/context/EditorContext.tsx:607-615 | With no children expected, only the object itself is saved |
| StatePropagation.UpdateChildrenFirst | client/context/EditorContext.tsx:607-615 | With children expected, every child event precedes the object's own save, and a child failure skips that save |
| StatePropagation.UpdateReportsTarget | client/context/EditorContext.tsx:607-615 | When the children succeed, the final snackbar reports the object's own save |
| StatePropagation.ResultTextOk | client/context/EditorContext.tsx:624-641 | A result is "ok" only for an "ok" reply or an error whose message is "ok"; a message-less error reads "Unexpected error" |
| StatePropagation.AfterRelinkEvicts | client/context/EditorContext.tsx:630-638 | Relinking removes exactly the child's details and parent-tree entries and exactly the parent's child-list pages; the remaining values, the counts and the settings are kept |
| StatePropagation.AfterMoveResets | client/context/EditorContext.tsx:681-688 | A move removes exactly the child's details and parent-tree entries and empties the child-list storage; counts and settings are kept |
| StatePropagation.RemainingExample | client/context/EditorContext.tsx:578-585 | With 5 found of 100, the two children are announced with 95 and 94 remaining |
| StatePropagation.SavingMessageExample | client/context/EditorContext.tsx:567-576 | The progress message reads "Saving status for a:1 (95 more remaining)..." |
| Hierarchy.NodeTreeSound | api/src/routes/edit.test.ts:1452-1495 | Every pid in a node's ancestor tree is the node or reachable from it |
| Hierarchy.BranchesSound | api/src/routes/edit.test.ts:1452-1495 | Every pid in the branches is reachable from the child |
| Hierarchy.AncestorTreeSound | api/src/routes/edit.test.ts:1452-1495 | Everything in the ancestor tree is the pid or one of its ancestors |
| Hierarchy.BranchesInclude | api/src/routes/edit.test.ts:1452-1495 | The branches contain every node on a simple path that starts at a parent |
| Hierarchy.SimplePathInTree | api/src/routes/edit.test.ts:1452-1495 | Every node on a simple path from the pid is in its tree |
| Hierarchy.ShortenPath | api/src/routes/edit.test.ts:1202-1212 | Any path can be cut down to a simple path with the same ends |
| Hierarchy.AncestorTreeComplete | api/src/routes/edit.test.ts:1452-1495 | Every ancestor appears in the ancestor tree |
| Hierarchy.AncestorTreeExact | api/src/routes/edit.test.ts:1202-1212 | A pid is in the ancestor tree iff it is the root or reachable from it, which justifies the grandparent check |
| Hierarchy.Without | api/src/routes/edit.test.ts:1339-1395 | Removing an element from a parent list drops every copy of it, keeps every other element, is no longer than the list, and leaves a list without it unchanged |
| Hierarchy.WithoutAppend | api/src/routes/edit.test.ts:1339-1395 | Removal distributes over concatenation, so the remaining elements keep their order |
| Hierarchy.WithoutSingle | api/src/routes/edit.test.ts:1339-1395 | Removal from a one-element list empties it exactly when that element is the one removed |
| Hierarchy.SubgraphReach | api/src/routes/edit.test.ts:1339-1395 | Reachability in a subgraph implies reachability in the whole graph |
| Hierarchy.AcyclicSubgraph | api/src/routes/edit.test.ts:1339-1395 | A subgraph of an acyclic graph is acyclic |
| Hierarchy.RemoveParentEdgeShrinks | api/src/routes/edit.test.ts:1339-1395 | Removing a parent edge gives a subgraph |
| Hierarchy.ReachTrans | api/src/routes/edit.test.ts:1202-1212 | Reachability is transitive |
| Hierarchy.ReachAfterAdd | api/src/routes/edit.test.ts:1225-1251 | After adding the edge child→parent, any new path goes through that edge |
| Hierarchy.AttachKeepsAcyclic | api/src/routes/edit.test.ts:1190-1251 | Adding the edge is safe when the child is not the parent and is not reachable from it |
| Hierarchy.MoveKeepsAcyclic | api/src/routes/edit.test.ts:1270-1320 | Replacing all parents with one that does not reach the child keeps the graph acyclic |
| Hierarchy.DetachKeepsAcyclic | api/src/routes/edit.test.ts:1339-1395 | Removing a parent edge keeps the graph acyclic |
| EditRoutes.ParentErrorIffRules | api/src/routes/edit.test.ts:200-292 | The parent check passes iff the parent model may contain every child model |
| EditRoutes.ParentErrorCollectionFirst | api/src/routes/edit.test.ts:200-212 | A parent without the collection model is refused with "Illegal parent …; not a collection!" |
| EditRoutes.SequencePosition | api/src/routes/edit.test.ts:1225-1251 | A sequence position exists iff the parent sorts by "custom" and the body parses as an integer, and it is that integer |
| EditRoutes.ListsParentIff | api/src/routes/edit.test.ts:1356-1367 | The shallow tree lists a parent iff it is an immediate parent |
| EditRoutes.ReplaceChar | api/src/routes/edit.test.ts:889-935 | Replacing a character keeps the length and changes exactly the occurrences of that character |
| EditRoutes.PerformNext | api/src/routes/edit.test.ts:1239-1251 | Performing one more write is one more step |
| EditRoutes.PerformStaysFailed | api/src/routes/edit.test.ts:1253-1267 | After the first failing write, the later writes change nothing |
| EditRoutes.Repository.constructor | api/src/routes/edit.test.ts:1168-1189 | Starts on the given store and world with an empty log |
| EditRoutes.Repository.Carry | api/src/routes/edit.test.ts:1253-1267 | Running a plan logs the lookups, then the attempted writes, and leaves the store and response that Respond gives |
| EditRoutes.Repository.CarryWrites | api/src/routes/edit.test.ts:1253-1267 | The write loop leaves the store, log and failure that Perform gives |
| EditRoutes.Repository.AttachToParent | api/src/routes/edit.test.ts:1168-1267 | The attach route's response and new store are those of its plan |
| EditRoutes.Repository.MoveToParent | api/src/routes/edit.test.ts:1270-1337 | The move route's response and new store are those of its plan |
| EditRoutes.Repository.DetachFromParent | api/src/routes/edit.test.ts:1339-1395 | The detach route's response and new store are those of its plan |
| EditRoutes.Repository.SetPosition | api/src/routes/edit.test.ts:1497-1545 | The set-position route's response and new store are those of its plan |
| EditRoutes.Repository.ClearPosition | api/src/routes/edit.test.ts:1397-1450 | The clear-position route's response and new store are those of its plan |
| EditRoutes.Repository.SetState | api/src/routes/edit.test.ts:1052-1121 | The state route's response and new store are those of its plan |
| EditRoutes.Repository.SetSortOn | api/src/routes/edit.test.ts:1123-1166 | The sortOn route's response and new store are those of its plan |
| EditRoutes.Repository.NewObject | api/src/routes/edit.test.ts:162-370 | The new-object route's response and new store are those of its plan |
| EditRoutes.Repository.Parents | api/src/routes/edit.test.ts:1452-1495 | The parents route answers with the tree of its plan and changes nothing |
| EditRoutes.Repository.ChildCounts | api/src/routes/edit.test.ts:837-887 | The child-counts route answers as its plan and changes nothing |
| EditRoutes.Repository.Children | api/src/routes/edit.test.ts:889-935 | The children route answers as its plan and changes nothing |
| EditProperties.PerformAttemptsPrefix | api/src/routes/edit.test.ts:1253-1267 | The attempted writes are a prefix of the plan; all of them when none fails; a failure carries a non-success status |
| EditProperties.StepBookkeeping | api/src/routes/edit.test.ts:1253-1267 | After a failure a step does nothing; otherwise it records the call, and a new failure has the call's fault status |
| EditProperties.PerformOne | api/src/routes/edit.test.ts:1225-1237 | A one-write plan is one step |
| EditProperties.PerformTwo | api/src/routes/edit.test.ts:1239-1251 | A two-write plan is two steps in order |
| EditProperties.RejectionChangesNothing | api/src/routes/edit.test.ts:1190-1223 | A rejected plan leaves the store unchanged, logs only reads and answers with the rejection |
| EditProperties.ValidationReadsOnly | api/src/routes/edit.test.ts:1168-1224 | The lookups of every mutating route are reads only |
| EditProperties.RelinkReadsOnly | api/src/routes/edit.test.ts:1168-1337 | Attach and move validate with reads only |
| EditProperties.PositionReadsOnly | api/src/routes/edit.test.ts:1339-1545 | Detach and both position routes validate with reads only |
| EditProperties.SettingsReadOnly | api/src/routes/edit.test.ts:162-370 | The state, sortOn and new-object routes validate with reads only |
| EditProperties.RejectsSelfParent | api/src/routes/edit.test.ts:1190-1200 | An object as its own parent is refused with 400 "Object cannot be its own parent." before any lookup |
| EditProperties.RejectsOwnAncestor | api/src/routes/edit.test.ts:1202-1212 | A parent reachable from the object is refused with 400 "Object cannot be its own grandparent." |
| EditProperties.MoveChecksAsAttach | api/src/routes/edit.test.ts:1287-1298 | Move makes the same lookups as attach, is rejected exactly when attach is, and with the same answer |
| EditProperties.RelinkAcceptedIff | api/src/routes/edit.test.ts:1190-1251 | Relinking proceeds iff the pids differ and no hierarchy fault occurs, the parent does not reach the child, the child models can be read, and the models fit |
| EditProperties.AttachWritesEdges | api/src/routes/edit.test.ts:1225-1251 | An accepted attach writes the parent relation, then a sequence relation only for a custom-sorted parent |
| EditProperties.AttachedAtPositionTwo | api/src/routes/edit.test.ts:1239-1251 | Body "2" under a custom parent writes the parent relation and sequence position 2 |
| EditProperties.MoveWritesOneCall | api/src/routes/edit.test.ts:1299-1320 | An accepted move is one move call, carrying a position only for a custom parent |
| EditProperties.AttachWritesParents | api/src/routes/edit.test.ts:1225-1251 | After the attach writes, the parent graph is either unchanged or has exactly the one new edge added |
| EditProperties.AttachKeepsGraphAcyclic | api/src/routes/edit.test.ts:1190-1251 | The attach route never makes an acyclic parent graph cyclic |
| EditProperties.MoveWriteParents | api/src/routes/edit.test.ts:1299-1320 | A performed move replaces the object's parents with the one new parent |
| EditProperties.MoveKeepsGraphAcyclic | api/src/routes/edit.test.ts:1270-1337 | The move route never makes an acyclic parent graph cyclic |
| EditProperties.DetachRequiresImmediateParent | api/src/routes/edit.test.ts:1356-1367 | Detach proceeds iff the parent is an immediate parent; otherwise it is refused with the illegal-pair message |
| EditProperties.DetachWrites | api/src/routes/edit.test.ts:1368-1395 | Detach deletes the parent relation, plus the sequence relation for a custom parent |
| EditProperties.DetachWritesEffect | api/src/routes/edit.test.ts:1368-1395 | The detach writes either keep the graph or remove exactly the one edge; when all succeed, the edge is gone, and for a custom parent so is the sequence entry |
| EditProperties.DetachRemovesEdge | api/src/routes/edit.test.ts:1339-1395 | The detach route keeps the graph acyclic and, on success, the parent is no longer an immediate parent |
| EditProperties.PositionNeedsCustomParent | api/src/routes/edit.test.ts:1497-1532 | Setting or clearing a position proceeds only for an immediate, custom-sorted parent, else it is refused |
| EditProperties.SetPositionRecords | api/src/routes/edit.test.ts:1533-1545 | A successful set-position records the parsed position for that pair |
| EditProperties.ClearPositionRemoves | api/src/routes/edit.test.ts:1422-1450 | A successful clear-position removes the recorded position for that pair and keeps the parent graph |
| EditProperties.SetStateRejectsIllegal | api/src/routes/edit.test.ts:1067-1078 | An illegal state is refused with 400 "Illegal state: …" without a lookup |
| EditProperties.SetStateWritesOnChange | api/src/routes/edit.test.ts:1079-1121 | A legal state reads the object data and writes the state only when it differs from the stored one |
| EditProperties.SetStateIdempotent | api/src/routes/edit.test.ts:1109-1121 | Putting the same legal state twice answers "ok" both times; the first leaves the state set, and the second only reads and changes nothing |
| EditProperties.SetSortOnValidates | api/src/routes/edit.test.ts:1124-1166 | sortOn proceeds iff the body is "custom" or "title"; anything else is refused with the "Unrecognized sortOn value" message; on success the store records the value |
| EditProperties.NewObjectChecksFields | api/src/routes/edit.test.ts:169-198 | Missing model, unknown model, missing title and missing state are refused in that order with their messages |
| EditProperties.NewObjectUnderParent | api/src/routes/edit.test.ts:200-370 | With all fields valid, a new object is checked against its parent and built only when the models fit |
| EditProperties.ModelPrefixStripped | api/src/routes/edit.test.ts:345-370 | Stripping the model namespace prefix gives back the bare model name |
| EditProperties.DataNeedsList | api/src/routes/edit.test.ts:213-232 | A data child is refused under a parent that is not a list |
| EditProperties.ParentsOfBareObject | api/src/routes/edit.test.ts:1457-1478 | An object without parents or title answers a childless tree with an empty title |
| EditProperties.CountsJsonExample | api/src/routes/edit.test.ts:846-865 | The counts answer is the JSON of direct and total counts |
| EditProperties.ChildCountsSucceedsIff | api/src/routes/edit.test.ts:846-887 | Child counts succeed iff neither Solr query faults |
| EditProperties.ChildSortExample | api/src/routes/edit.test.ts:898-910 | The children sort for "foo:123" is "sequence_foo_123_str ASC,title_sort ASC" |
| EditProperties.ChildSortHasNoColonFromPid | api/src/routes/edit.test.ts:898-910 | The pid inside the sort field holds no ':' |
| EditProperties.ChildrenDefaults | api/src/routes/edit.test.ts:898-924 | Without overrides the query starts at 0 and asks for 100000 rows; any given start and any given row count are passed on as they are, each independently of the other |
| DatastreamOps.MimePartsOf | client/hooks/useDatastreamOperation.ts:29-39 | A "type/subtype" string splits into its type and subtype |
| DatastreamOps.SplitOnNone | client/hooks/useDatastreamOperation.ts:29-39 | Splitting a string without the separator gives the string alone, so a missing subtype reads "undefined" |
| DatastreamOps.UncataloguedRefuses | client/hooks/useDatastreamOperation.ts:29-39 | A datastream without a catalog entry refuses every MIME type |
| DatastreamOps.ExactRuleAllows | client/hooks/useDatastreamOperation.ts:29-39 | A type and subtype listed by the rule are allowed |
| DatastreamOps.WildcardAllowsAll | client/hooks/useDatastreamOperation.ts:29-39 | "*" for both type and subtype allows any MIME type |
| DatastreamOps.ForeignTypeRefused | client/hooks/useDatastreamOperation.ts:29-39 | A type the rule does not mention, without wildcard, is refused |
| DatastreamOps.DownloadFileNameOf | client/hooks/useDatastreamOperation.ts:184-203 | "attachment; filename=NAME;…" gives NAME |
| DatastreamOps.DispositionNameOf | client/hooks/useDatastreamOperation.ts:184-203 | Any lead before "filename=NAME;" gives NAME when the lead has no "filename=" |
| DatastreamOps.DispositionValueName | client/hooks/useDatastreamOperation.ts:184-203 | The header value parser returns the name between "filename=" and ";" |
| DatastreamOps.DispositionPieces | client/hooks/useDatastreamOperation.ts:184-203 | The name is the text after the first "filename=" up to ";", or none when empty |
| DatastreamOps.NoDispositionNoName | client/hooks/useDatastreamOperation.ts:184-203 | Without a Content-Disposition header there is no filename |
| DatastreamOps.NoFilenameNoName | client/hooks/useDatastreamOperation.ts:184-203 | A header without "filename=" gives no filename |
| DatastreamOps.MediaTypeDropsParameters | client/hooks/useDatastreamOperation.ts:205-227 | The media type is the Content-Type before the first ";" |
| DatastreamOps.NormalizeMedia | client/hooks/useDatastreamOperation.ts:205-227 | A type containing audio/x-flac becomes audio/flac; others are unchanged |
| DatastreamOps.ViewOf | client/hooks/useDatastreamOperation.ts:205-227 | A failed view has empty data and type and carries the error |
| DatastreamOps.ViewLabels | client/hooks/useDatastreamOperation.ts:205-227 | A text type is shown inline as text, any other as a blob URL, labelled with its normalised media type |
| DatastreamOps.TextMediaWithParameters | client/hooks/useDatastreamOperation.ts:205-227 | "text/…" with parameters counts as text |
| DatastreamOps.CountNoticesAppend | client/hooks/useDatastreamOperation.ts:41-182 | Notice counts add over concatenation |
| DatastreamOps.SubmitReportsOnce | client/hooks/useDatastreamOperation.ts:68-182 | A submission fetches first, shows exactly one notice, reloads iff the reply is ok, reports success iff ok and the reload succeeded, and closes the modal iff asked |
| DatastreamOps.UploadGuarded | client/hooks/useDatastreamOperation.ts:41-66 | An upload fetches iff the MIME check allows it; an illegal type shows "Illegal mime type: …"; the modal always closes |
| DatastreamOps.DownloadSavesOnlyNamedBlobs | client/hooks/useDatastreamOperation.ts:184-203 | A file is saved iff the reply is ok and carries a filename and a blob; it is saved under that name; an ok reply without them posts the error notice "Incorrect file format", a failed reply posts its own error as an error notice |
| DatastreamOps.DatastreamPanel.constructor | client/hooks/useDatastreamOperation.ts:17-28 | The panel holds the given context and an empty effect trace |
| DatastreamOps.DatastreamPanel.Submit | client/hooks/useDatastreamOperation.ts:68-89 | Appends the submission effects for the request's reply |
| DatastreamOps.DatastreamPanel.UploadFile | client/hooks/useDatastreamOperation.ts:41-66 | Appends the guarded upload effects for the file's MIME check |
| DatastreamOps.DatastreamPanel.UploadAgents | client/hooks/useDatastreamOperation.ts:68-89 | Posts the agents without closing the modal |
| DatastreamOps.DatastreamPanel.UploadDublinCore | client/hooks/useDatastreamOperation.ts:91-113 | Posts the Dublin Core metadata and closes the modal |
| DatastreamOps.DatastreamPanel.UploadLicense | client/hooks/useDatastreamOperation.ts:115-137 | Posts the license key and closes the modal |
| DatastreamOps.DatastreamPanel.UploadProcessMetadata | client/hooks/useDatastreamOperation.ts:139-161 | Posts the process metadata and closes the modal |
| DatastreamOps.DatastreamPanel.DeleteDatastream | client/hooks/useDatastreamOperation.ts:163-182 | Deletes the active datastream and closes the modal |
| DatastreamOps.DatastreamPanel.DownloadDatastream | client/hooks/useDatastreamOperation.ts:184-203 | Appends the download effects |
| DatastreamOps.DatastreamPanel.ViewDatastream | client/hooks/useDatastreamOperation.ts:205-227 | Fetches the view and returns its data and type, or shows the error |
| DatastreamOps.DatastreamPanel.ViewMetadataText | client/hooks/useDatastreamOperation.ts:229-247 | Fetches the metadata view and returns its text, or shows the error |
| DatastreamOps.DatastreamPanel.GetDatastreamMimetype | client/hooks/useDatastreamOperation.ts:249-260 | Returns the fetched MIME type, or "" with an error notice |
| DatastreamOps.DatastreamPanel.GetLicenseKey | client/hooks/useDatastreamOperation.ts:262-275 | Returns the fetched license key, or "" with an error notice |
| DatastreamOps.DatastreamPanel.GetProcessMetadataOf | client/hooks/useDatastreamOperation.ts:276-292 | Fetches only when forced or the stream exists; falls back to the defaults |
| DatastreamOps.DatastreamPanel.GetAgentsOf | client/hooks/useDatastreamOperation.ts:293-309 | Fetches only when forced or the stream exists; falls back to no agents |
| GeneratePdf.HasPdfAlreadyIff | api/src/jobs/GeneratePdf.ts:40-49 | A PDF exists iff some rendering of the first sequence has the PDF format; without sequences there is none |
| GeneratePdf.LargeJpegsInCanvasOrder | api/src/jobs/GeneratePdf.ts:51-56 | The jpeg list exists iff every canvas has an image; it then holds each canvas's first image in canvas order |
| GeneratePdf.RenderNext | api/src/jobs/GeneratePdf.ts:64-78 | Rendering one more jpeg is one more step |
| GeneratePdf.RenderStopsAtFailure | api/src/jobs/GeneratePdf.ts:64-78 | After a bad image no further image is fetched |
| GeneratePdf.RenderOnePagePerJpeg | api/src/jobs/GeneratePdf.ts:64-78 | When every image answers 200, there is one page per jpeg, in order, holding that image |
| GeneratePdf.RenderFailsAtFirstBadImage | api/src/jobs/GeneratePdf.ts:64-78 | The first non-200 image fails the run with its status and url, after exactly the earlier pages |
| GeneratePdf.RenderBuildsNothing | api/src/jobs/GeneratePdf.ts:58-95 | Rendering only fetches and logs |
| GeneratePdf.RunRejectsBadManifest | api/src/jobs/GeneratePdf.ts:114-120 | A non-200 manifest fails the job with "Unexpected … status for …" after one fetch |
| GeneratePdf.RunSkipsExistingPdf | api/src/jobs/GeneratePdf.ts:122-125 | A manifest that already has a PDF ends the job with a log line and nothing else |
| GeneratePdf.RunSkipsImagelessManifest | api/src/jobs/GeneratePdf.ts:126-130 | A manifest without canvases ends the job with a log line |
| GeneratePdf.RunCreatesNothingOnBadImage | api/src/jobs/GeneratePdf.ts:64-78 | A bad image fails the job and nothing is created in the repository |
| GeneratePdf.RunFinishesByAttempt | api/src/jobs/GeneratePdf.ts:113-137 | Once every page has come, the job is the manifest fetch, the page fetches, then the calls after the pages made in order up to the first that throws, whose error fails the job |
| GeneratePdf.RunFilesPdf | api/src/jobs/GeneratePdf.ts:87-136 | When no call after the pages throws, the job runs OCR (when configured), looks up the object's state, builds a "Document List" under the object and a "PDF" document in it at position 1 in that state, attaches the file as MASTER and removes it, in that order, after the manifest and page fetches |
| GeneratePdf.RunStopsAtDocumentFault | api/src/jobs/GeneratePdf.ts:97-136 | A throwing build of the PDF document fails the job with its error and leaves the document list built, with nothing sequenced, attached or removed |
| GeneratePdf.FinishStopsAtDocumentFault | api/src/jobs/GeneratePdf.ts:97-136 | The calls after the pages stop right after a throwing build of the PDF document |
| GeneratePdf.FinishEffectsInFull | api/src/jobs/GeneratePdf.ts:87-136 | The calls after the pages are OCR, the lookup, the two builds, the sequencing, the attachment and the removal, in that order |
| GeneratePdf.AttemptStopsAtFault | api/src/jobs/GeneratePdf.ts:97-136 | Awaited calls succeed iff none throws, and then all are made; otherwise they are made up to and including the first that throws, whose error is the failure |
| GeneratePdf.AttemptAppend | api/src/jobs/GeneratePdf.ts:97-136 | Making two runs of calls in a row is making the first and, unless one of its calls throws, the second |
| GeneratePdf.AttemptCons | api/src/jobs/GeneratePdf.ts:97-136 | The first call either throws, ending the run, or is followed by the rest |
| GeneratePdf.AttemptFaultAfter | api/src/jobs/GeneratePdf.ts:97-136 | After calls that all succeed, a throwing call is the last one made, and its error is the failure |
| GeneratePdf.PdfGenerator.constructor | api/src/jobs/GeneratePdf.ts:19-29 | The generator holds its pid, configuration and services |
| GeneratePdf.PdfGenerator.GeneratePages | api/src/jobs/GeneratePdf.ts:58-78 | The fetch loop gives the pages and failure of RenderPages |
| GeneratePdf.PdfGenerator.Call | api/src/jobs/GeneratePdf.ts:97-136 | One awaited call: made, and either succeeds or throws its error |
| GeneratePdf.PdfGenerator.AddPdfToPid | api/src/jobs/GeneratePdf.ts:97-111 | Builds a "Document List" collection under the pid, then the PDF document at position 1 in it, then attaches the file as MASTER with the PDF MIME type, stopping at the first call that throws |
| GeneratePdf.PdfGenerator.BuildDocument | api/src/jobs/GeneratePdf.ts:103-107 | Builds a "PDF" document of model PDFData in the list with the given state, and sequences it at the given number unless the build throws; returns its pid |
| GeneratePdf.PdfGenerator.FinishPdf | api/src/jobs/GeneratePdf.ts:87-136 | OCR, the state lookup, the filing and the removal, in order, stopping at the first call that throws |
| GeneratePdf.PdfGenerator.FollowImages | api/src/jobs/GeneratePdf.ts:126-136 | The job's continuation from the jpeg list |
| GeneratePdf.PdfGenerator.FollowManifest | api/src/jobs/GeneratePdf.ts:114-130 | The job's continuation from the manifest reply |
| GeneratePdf.PdfGenerator.Run | api/src/jobs/GeneratePdf.ts:113-137 | The whole job's effects and failure are RunJob's |
| Authentication.LegalUsernames | api/src/services/Authentication.ts:23-30 | With no list every name is legal; otherwise exactly the listed names are |
| Authentication.IllegalUsernameRefused | api/src/services/Authentication.ts:37-39 | An illegal name is refused by both strategies without touching the database |
| Authentication.PasswordChecked | api/src/services/Authentication.ts:40-44 | With passwords required, a legal user logs in iff the stored hash equals the salted digest of the password |
| Authentication.PasswordlessLogin | api/src/services/Authentication.ts:45-47 | Without passwords, a legal name logs in as the possibly new user |
| Authentication.SamlLoginIff | api/src/services/Authentication.ts:64-71 | SAML logs in iff the name id is legal, as the possibly new user |
| Authentication.SessionRoundTrip | api/src/services/Authentication.ts:84-91 | Deserialising a serialised user gives back the user found by id; two users share a session iff they share an id; a user whose id is unknown restores to nothing |
| Authentication.SessionStable | api/src/services/Authentication.ts:84-91 | With a database that answers an id lookup with that id's user, a restored session serialises back to its id, and a user restores to itself iff the lookup of its id gives it |
| Authentication.StrategySelection | api/src/services/Authentication.ts:93-101 | Only "local" and "saml" are accepted, and any other strategy gives "Unsupported auth strategy: …"; SAML uses the backend URL callback |
| Authentication.Passport.constructor | api/src/services/Authentication.ts:93-101 | A fresh passport has no serializers and no strategies |
| Authentication.Passport.InitializePassport | api/src/services/Authentication.ts:83-101 | Installs the serializers, and adds the selected strategy or reports the error |
| Strings.IndexOf | client/hooks/useDatastreamOperation.ts:29-39 | indexOf finds the first occurrence, or proves there is none |
| Strings.SplitOn | client/hooks/useDatastreamOperation.ts:184-203 | The pieces of split contain no separator |
| Strings.JoinSplitOn | client/hooks/useDatastreamOperation.ts:184-203 | Joining the split pieces gives back the string |
| Strings.BeforeFirstKeepsName | client/hooks/useDatastreamOperation.ts:184-203 | The filename piece before ";" is the name itself |
| Strings.ParseIntOfIntToString | api/src/routes/edit.test.ts:1239-1251 | parseInt of a printed integer gives the integer |
| Strings.DigitsValueOfNat | api/src/routes/edit.test.ts:1239-1251 | The value of a number's digits is the number |

## Left out

- The route handlers are modelled from the behaviour their tests in api/src/routes/edit.test.ts assert. Choices the tests leave open are fixed as follows:
  - In /object/new the collection check comes first.
  - In attach and move, the child models are read (a throw gives 500) before the collection check.
  - Position routes require a custom-sorted immediate parent, and the immediate-parent check uses a shallow hierarchy read.
  - A position that does not parse (NaN) is `None`.
  - The legal states are Active, Inactive and Deleted. The model catalog is a parameter.
  - 500 response bodies other than an exception's message are "".
  - The two child-count queries run one after the other.
  - The Solr sort replaces every ':' of the pid.
  - Missing titles read "". "Missing" means absent or empty.
- Hierarchy.AncestorTree: the code that builds the hierarchy is not part of this model. The model's tree skips a node that is already on the current branch, so that it is finite on any graph.
- The own-ancestor check refuses a parent whose ancestor tree contains the child (api/src/routes/edit.test.ts:1202-1212); the model follows that direction.
- StatePropagation.Editor.UpdateObjectState: always PUTs the target's state. Skipping an unchanged state is done by the server route and is modelled there (EditProperties.SetStateWritesOnChange).
- StatePropagation.Editor.ApplyObjectStateToChildren: requires `PagesAdvance`, which holds exactly on the inputs where the source loop ends. An empty page below the expected total whose saves all succeed makes the source query the same offset forever.
- Console output of the editor and of the routes is not modelled, because it is not state: the reducer's report of an unknown action type (client/context/EditorContext.tsx:245, modelled as `Unrecognized` leaving the state as it is) and the logged build exception of /object/new (api/src/routes/edit.test.ts:316-344, modelled by its 400 reply carrying the exception's message).
- Concurrency of React dispatches, component rendering and hook memoisation are left out. The reducer is applied in program order.
- The network is left out: each fetch is an oracle from request to reply (`store`, `index`, `texts`, `jsons`, `blobs` and the route `World`). Network errors are replies.
- DatastreamOps.MimeCheck: the catalog fields are strings, so the check uses substring `includes` as the source does. A missing rule for a catalogued datastream throws a TypeError in the source; the model shows the type-error notice and closes the modal.
- DatastreamOps.DatastreamPanel.DownloadDatastream: creating a link and an object URL in the DOM is abstracted as a `Saved(name)` effect. Viewing a blob is abstracted as `BlobUrl(blob)`.
- DatastreamOps.ViewOf: a reply without Content-Type is treated as the TypeError the source would throw.
- The reload of object details after a submission is an oracle outcome (`reloadError`).
- Header lookup is case-sensitive.
- GeneratePdf: drawing with pdfkit, temporary files, image sizes and the OCR process are left out. The PDF file is an oracle name, and the OCR step is only the command line. Console output is a `Logged` effect. A thrown error is a failure message. The OCR command, the object lookup, the builds, the sequencing, the attachment and the removal of the file may throw, as the `fault` oracle says; the job stops at the first that does, so a document list can remain without a PDF document. A canvas without images gives "TypeError".
- GeneratePdf.PdfGenerator.BuildDocument: the built object is reduced to its model, title, state and parent.
- Authentication: the hash digest and the user database are oracles.
  - The `getInstance` singletons are left out. The local strategy hashes with the singleton configuration; the model assumes it is the same configuration.
  - The passport and SAML library wiring and the logout stub are left out.
- Integer widths: all counts and positions are unbounded integers. None of the modelled code relies on wrap-around.
