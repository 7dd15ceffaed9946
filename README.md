# Workflow builder: board export, linked workflows and tree operations

This project models and proves the in-memory core of a browser-based workflow builder. A workflow ("flow") is a forest of units. Each unit has an id, a name, tags, a grade, a footer of notes, links, images and comments, and child units (`subcategories`). The flow's template gives one level per depth.

The modelled parts are:

- **The board export of `export-to-board-module.js`.** The export modal's configuration is validated and gathered (`handleExportSubmit`). The units in scope are collected by a depth-bounded preorder walk. The export then lays out the board's columns, creates zero, one or two cards per unit with attachments and a deduplicated label palette, and builds the parent-linked dynamic list (`executeWorkflowExport`). The dynamic-list selectors' default and bulk classifications (`buildDynamicListTree`, `getNodeDepth`, `applyBulkDynamicSetup`) are modelled as well.
- **The flow-level operations of `script.js`:**
  - Link groups: `getLinkedWorkflows`, `isWorkflowLinked`, `createLinkGroup`, `addToLinkGroup` and `unlinkWorkflow`.
  - `propagateToLinkedWorkflows`: positional id reuse, fresh ids, and re-keying of the completion map.
  - `copyWorkflow` and `createLinkedWorkflow`: unit id regeneration, with completion carried over. `createLinkedWorkflow` ends by saving in creation mode, which propagates the new flow to its linked flows.
- **The tree utilities of `script.js`:**
  - The execution state: `ensureExecFlow`, `setCompleted`, `isCompleted` and `toggleUnitCompletion`.
  - Cumulative grades.
  - Adding and removing tags, and the tag filter.
  - `CollapseManager`.
  - `getAbsoluteUrl`.
  - `getObjectByPath`, `addChildUnit` and `deleteUnit`, with unit addresses written as index paths.
  - The card-building parts of the older `exportUnitToBoard` and `exportTagToBoard`.
- **`LoadingOverlay` of `loading-overlay.js`:** a reference count behind one overlay element.

Code that builds things step by step is modelled as methods on classes, checked against specification functions:

- **Classes:** `IdClock`, `Executions`, `WorkflowLinks`, `CollapseManager`, `AppState` and `LoadingOverlay`.
- **Step-by-step code:** the export's collection, card and dynamic-list loops; `regenerateIds`; `regenerateUnitIds`; the re-keying loop.

The pure code is modelled as functions with lemmas. `generateId` is a counter clock. It mints `prefix-<n>` and is injective per prefix, which stands in for the timestamp and random suffix.

Where the code departs from what one would expect, the model follows the code:

- **The propagation `idMap` is keyed by the source flow's unit ids** (script.js:299, 303), not by the target's, although it is used to re-key the target's completion map.
- **Target completion keys are mostly kept as they are** (script.js:324). So a unit matched by position keeps its mark only because it reuses the target's id.
- **The keys of target units that disappeared are never removed.** One might expect no key to refer to an absent unit. `Propagation.RemapKeepsForeignKeys` states what the code does instead.
- **`isDone` and the default `done` column read the unit's own `completed` field** (export-to-board-module.js:302, 834, 1022), not the execution map.

## Model

| member | source | states |
|---|---|---|
| Ids.Mint | script.js:51 | a minted id is the prefix, a dash, then a non-empty suffix |
| Ids.MintInjective | script.js:51 | two ids minted under one prefix are equal only when drawn at the same clock reading |
| Ids.FirstSegment | script.js:303 | `split('-')[0]` is the dash-free prefix of the id up to its first dash, or the whole id |
| Ids.FirstSegmentOfMint | script.js:303 | re-splitting an id minted under a dash-free prefix gives that prefix back |
| Ids.IdClock.GenerateId | script.js:51 | returns the id minted at the current reading and advances the clock by one |
| Text.Trim | script.js:54 | the result is the input without its leading and trailing whitespace, starting and ending with a non-space |
| Text.BlankIffAllSpace | script.js:54 | a string trims to "" exactly when it consists of whitespace only |
| Url.GetAbsoluteUrl | script.js:53-58 | blank or non-string input gives `about:blank`; `assets/`, `http://` and `https://` inputs pass unchanged; anything else gets `https://` in front |
| Url.AboutBlankOnlyForBlank | script.js:53-58 | `about:blank` comes out only for blank or non-string input |
| Url.ResultIsAbsolute | script.js:55-57 | every result for non-blank input starts with a scheme or the asset prefix |
| Url.ResultNotBlank | script.js:53-58 | non-blank input never gives a blank result |
| Url.Idempotent | script.js:53-58 | normalising a normalised non-blank URL changes nothing |
| Workflow.GetByPathExtend | script.js:344-347 | one more index step from an address reaches that child of the addressed sibling list, or nothing past its end |
| Workflow.GetByPathPrefix | script.js:344-347 | every prefix of a unit's address addresses a unit, its ancestor |
| Workflow.GetByPath | script.js:344-347 | `getObjectByPath`: the unit at an address of root index then child indices; none for an empty address or an index past the end (`GetByPathExtend` and `GetByPathPrefix` state its laws) |
| Workflow.WalkFromSound | export-to-board-module.js:684-711 | every visit of the depth-bounded preorder walk addresses its unit, at depth `|path|-1` below the bound |
| Workflow.WalkFromComplete | export-to-board-module.js:684-711 | every unit within the bound inside the walked segment is visited |
| Workflow.WalkExact | export-to-board-module.js:684-714 | the walk of a flow lists exactly the units above the depth bound, each at its address |
| Workflow.Walk | export-to-board-module.js:684-711 | the preorder walk of the flow down to the depth bound; `WalkFromSound`, `WalkFromComplete` and `WalkExact` prove it visits exactly the units above the bound |
| Workflow.FindFlow | script.js:278 | `flows.find` by id: the first flow with that id, and none exactly when no flow has it |
| Execution.Ensured | script.js:356-361 | the flow gets an empty record when it had none; every other record and key is kept |
| Execution.WithCompleted | script.js:363-366 | `setCompleted` on the state as a value; `WithCompletedReads` states what `isCompleted` then answers |
| Execution.Toggled | script.js:1630-1631 | the unit stores the negation of its current answer; `ToggleFlips`, `ToggleTwice` and `ToggleTwiceExact` state its laws |
| Execution.WithCompletedReads | script.js:363-371 | after `setCompleted`, `isCompleted` answers the stored value for that unit and the old answer everywhere else |
| Execution.ToggleFlips | script.js:1630-1631 | toggling flips the unit's answer and leaves every other answer unchanged |
| Execution.ToggleTwice | script.js:1630-1631 | toggling twice restores every `isCompleted` answer |
| Execution.ToggleTwiceExact | script.js:363-371 | once the unit has a stored boolean, toggling twice restores the very same state |
| Execution.Executions.EnsureExecFlow | script.js:356-361 | the state becomes `Ensured` of the old state, and the flow's record is returned |
| Execution.Executions.SetCompleted | script.js:363-366 | the unit's flag in the flow's (ensured) record becomes the value |
| Execution.Executions.IsCompleted | script.js:368-371 | answers true only for a stored `true`, and creates the flow's record as a side effect |
| Execution.Executions.ToggleUnitCompletion | script.js:1623-1637 | without a flow or a unit at the path nothing changes; otherwise the unit id's flag is toggled |
| Grades.UpdateUnits | script.js:393-406 | the update of a list is each unit's update, in order, with the same length |
| Grades.CumulativeGrade | script.js:374-391 | the unit's own grade off a cumulative level or on the last level, else the sum of its children's computed grades; `UpdatedGradeIsSum` and `CumulativeGradeStable` state its laws |
| Grades.UpdateUnit | script.js:393-406 | one unit's update: the computed grade on a cumulative level, the children updated above the last level; `UpdatedGradeIsComputed`, `UpdateUnitIdempotent` and `UpdateUnitKeepsShape` state its laws |
| Grades.UpdateAllCumulativeGrades | script.js:393-406 | the loop computes exactly `UpdateUnits` of its input |
| Grades.UpdatedGradeIsComputed | script.js:374-406 | after the update every unit stores its computed cumulative grade |
| Grades.SumGradesOfUpdated | script.js:388-390 | the children's computed grades sum to the stored grades of the updated children |
| Grades.UpdatedGradeIsSum | script.js:379-390 | on a cumulative level above the last, an updated unit stores the sum of its updated children's grades |
| Grades.CumulativeGradeStable | script.js:374-406 | updating changes no computed grade |
| Grades.SumGradesStable | script.js:388-390 | updating a list changes no sum of computed grades |
| Grades.UpdateUnitIdempotent | script.js:393-406 | updating twice gives what updating once gives |
| Grades.UpdateUnitsIdempotent | script.js:393-406 | the same for a list of units |
| Grades.UpdateUnitKeepsShape | script.js:396-405 | the update changes grades only: every other field and the number of children stay |
| Tags.FilterUnitsByTag | script.js:1465-1478 | a unit is kept exactly when it passes the filter's test, and nothing else is kept |
| Tags.FilterUnitsByTagAppend | script.js:1465-1478 | filtering two lists one after the other filters each in turn, and one unit is kept alone exactly when it passes the test: the kept units keep their order and their repeats |
| Tags.HasDescendantWithTag | script.js:1480-1484 | the recursion of `hasDescendantWithTag`; `HasDescendantWithTagIff` characterises it |
| Tags.KeepForTag | script.js:1466-1477 | the filter's test for one unit; `KeepForTagIff` characterises it |
| Tags.HasDescendantWithTagIff | script.js:1480-1484 | `hasDescendantWithTag` holds iff the unit or a descendant at most `levelCount - depth` steps down carries the tag |
| Tags.KeepForTagIff | script.js:1466-1477 | the filter keeps a unit iff it or a descendant within the remaining depth carries the tag; on the last level only its own tags count |
| Tags.AddTagSpec | script.js:1792-1800 | adding keeps the tags in order and adds the trimmed input exactly when it is non-blank and new, so no duplicate appears |
| Tags.AddTagIdempotent | script.js:1798-1799 | adding the same tag twice is adding it once |
| Tags.AddTag | script.js:1792-1800 | the trimmed input appended when non-blank and not yet present; `AddTagSpec` and `AddTagIdempotent` state its laws |
| Tags.RemoveTag | script.js:1817 | the result holds exactly the tags other than the removed one |
| Tags.RemoveTagAppend | script.js:1817 | removing from two lists one after the other removes from each in turn, and one tag is dropped exactly when it is the removed one: the other tags keep their order and their repeats |
| Tags.RemoveTagAbsent | script.js:1817 | removing an absent tag leaves the list as it is, order included |
| Tags.RemoveTagIdempotent | script.js:1817 | removing twice is removing once |
| Tags.RemoveAfterAdd | script.js:1792-1817 | removing a just-added tag gives what removing alone gives |
| Tags.AddTagAtEffect | script.js:1792-1806 | only the addressed unit's tags change, as `AddTag` says; a missing unit means no change |
| Tags.RemoveTagAtEffect | script.js:1813-1824 | only the addressed unit's tags change, losing every occurrence of the tag; a missing unit means no change |
| Units.UpdateAtHit | script.js:1600-1610 | after an edit through `getObjectByPath`, the addressed unit is the edited one |
| Units.UpdateAtMissing | script.js:1603-1607 | an address with no unit leaves the forest as it is |
| Units.UpdateAtElsewhere | script.js:1600-1610 | a unit neither above nor below the edited address is untouched |
| Units.UpdateAtAncestor | script.js:1600-1610 | every ancestor of the edited unit keeps all its fields but its children |
| Units.GetByPathGrow | script.js:1556 | pushing onto a sibling list keeps every address that led to a unit |
| Units.UpdateAtKeepsIds | script.js:1553-1556 | an edit that only appends children keeps every address leading to a unit with the same id |
| Units.UpdateAt | script.js:1600-1610 | an edit through `getObjectByPath` keeps the number of roots; `UpdateAtHit`, `UpdateAtMissing`, `UpdateAtElsewhere` and `UpdateAtAncestor` state its effect |
| Units.NewUnit | script.js:1512-1537 | the unit `addChildUnit` creates, with an empty name, no children and every optional field at its fallback |
| Units.AddChildUnit | script.js:1501-1565 | `addChildUnit` on the forest as a value; `AddChildUnitPlaces` and `AddChildUnitKeepsIds` state its effect |
| Units.DeleteUnit | script.js:1567-1598 | `deleteUnit` on the forest as a value; `DeleteUnitRemoves` states its effect |
| Units.AddChildUnitPlaces | script.js:1501-1565 | the new unit becomes the last root at depth 0, else the last child of the parent; a depth without a level or a missing parent changes nothing |
| Units.AddChildUnitKeepsIds | script.js:1501-1565 | adding a unit moves no existing unit |
| Units.DeleteUnitRemoves | script.js:1567-1598 | a confirmed delete of an existing unit with a level removes exactly its entry from its sibling list; anything else changes nothing |
| Collapse.UnitIdsComplete | script.js:868-905 | every unit (with children, for `collapseAll`) has its id written |
| Collapse.UnitIdsSound | script.js:868-905 | only ids of such units are written |
| Collapse.UnitIdsExact | script.js:868-905 | the ids written are exactly those of the qualifying units |
| Collapse.UnitIds | script.js:868-905 | the ids `collapseAll` (units with children) or `expandAll` (every unit) writes; `UnitIdsExact` characterises them |
| Collapse.SetAll | script.js:873-900 | writing one value under a set of ids adds those keys with that value and keeps every other entry |
| Collapse.ExpandPathEffect | script.js:841-863 | every unit on the way to the path, itself included, is marked expanded, and no other id changes |
| Collapse.ExpandPath | script.js:841-863 | the record after `expandWithParents` walks the path; `ExpandPathEffect` states which ids become expanded |
| Collapse.Visible | script.js:910-938 | a unit is visible when no proper ancestor with an id is collapsed; the lemmas below state when each operation makes units visible |
| Collapse.ExpandWithParentsShows | script.js:841-938 | after `expandWithParents(path)` the unit at the path is visible and not itself collapsed |
| Collapse.ExpandAllShows | script.js:889-938 | after `expandAll` every unit is visible |
| Collapse.CollapseAllHides | script.js:868-938 | after `collapseAll` no unit under a root that has an id is visible |
| Collapse.CollapseManager.IsCollapsed | script.js:787-792 | true only when `true` is stored for the unit; a missing flow or unit means expanded |
| Collapse.CollapseManager.Toggle | script.js:797-819 | stores and returns the opposite of the unit's current state and changes no other entry |
| Collapse.CollapseManager.ExpandWithParents | script.js:841-863 | the flow's record becomes `ExpandPath` of the old one |
| Collapse.CollapseManager.MarkUnits | script.js:873-880 | the recursion writes the value under exactly the ids `UnitIds` collects |
| Collapse.CollapseManager.MarkUnit | script.js:874-879 | one unit writes its own id when it qualifies, then its children's |
| Collapse.CollapseManager.CollapseAll | script.js:868-884 | every unit with children becomes collapsed and nothing else changes |
| Collapse.CollapseManager.ExpandAll | script.js:889-905 | every unit becomes expanded and nothing else changes |
| Collapse.CollapseManager.IsVisible | script.js:910-938 | true exactly when no proper ancestor with an id is collapsed |
| Links.FirstGroupWith | script.js:229-233 | finds the first group holding the flow, and none exactly when no group holds it |
| Links.RemoveId | script.js:231 | the filtered list holds exactly the other ids, and is shorter when the id was there |
| Links.RemoveIdAppend | script.js:231 | filtering two lists one after the other filters each in turn, and one id is dropped exactly when it is the flow's: the other ids keep their order and their repeats |
| Links.LinkedIn | script.js:228-235 | for a linked flow, the members other than itself of the first group that holds it; for a flow in no group, nothing |
| Links.AddedToSpec | script.js:250-260 | only the first group holding the existing flow changes, and its members become the old ones plus the flow appended, unless it was already there; no duplicate appears; with no such group nothing changes |
| Links.AddedTo | script.js:250-260 | the groups after `addToLinkGroup`; `AddedToSpec` characterises them |
| Links.Unlinked | script.js:262-268 | no remaining group holds the flow, and every remaining group has at least two members |
| Links.UnlinkedIsolates | script.js:262-268 | after unlinking, the flow is linked to nothing |
| Links.UnlinkedKeepsOthers | script.js:262-268 | a group that keeps two members keeps linking its other flows |
| Links.KeptGroups | script.js:263-268 | the indices the filter keeps, increasing: exactly the groups left with more than one member once the flow is removed |
| Links.UnlinkedExact | script.js:263-268 | the remaining groups are the kept ones, in their old order and under their old ids, each with the flow removed from its members |
| Links.LinkedAfterCopyJoins | script.js:755-760 | a new linked flow and its source are then linked to each other |
| Links.WorkflowLinks.GetLinkedWorkflows | script.js:228-235 | the loop returns the other members of the first group holding the flow |
| Links.WorkflowLinks.IsWorkflowLinked | script.js:237-239 | true iff some group holds the flow |
| Links.WorkflowLinks.CreateLinkGroup | script.js:241-248 | appends a group of the two flows under a fresh `link-` id and returns that id |
| Links.WorkflowLinks.AddToLinkGroup | script.js:250-260 | the links become `AddedTo`; the result is the joined group's id, or none when no group holds the existing flow |
| Links.WorkflowLinks.UnlinkWorkflow | script.js:262-272 | the links become `Unlinked`, so the flow is in no group |
| Links.WorkflowLinks.LinkNewFlow | script.js:755-760 | the new flow joins the source's group, or founds a group of the two; only founding a group draws an id, moving the clock by one |
| Copying.CopyNodeIds | script.js:645-658 | the pairs list the old ids of the unit and its descendants in preorder against the new ones, which are the clock's next ids |
| Copying.CopyListIds | script.js:660 | the same for a list: the copies' ids are the clock's next ids, in preorder |
| Copying.CopyNodeShape | script.js:638-658 | a copied unit keeps every field and the shape of its source, ids aside |
| Copying.CopyListShape | script.js:660 | the copied forest equals the source, ids aside |
| Copying.CopyNode | script.js:638-658 | the copy of one unit under the clock's next ids, with the old-to-new id pairs; `CopyNodeIds` and `CopyNodeShape` state its laws |
| Copying.CopyList | script.js:660 | the copies of a list in order; `CopyListIds`, `CopyListShape` and `CopiedIdsDistinct` state its laws |
| Copying.CopiedIdsDistinct | script.js:645-660 | no two units of a copy share an id |
| Copying.CarryKeepsOthers | script.js:650-653 | copying keeps every other flow's record, and the source's record gains no entry |
| Copying.CarryOneReads | script.js:650-653 | one step marks the new id when the source marks the old one, and changes no other answer about the new flow |
| Copying.CarryOne | script.js:650-653 | one pair's mark carried to the new flow; `CarryOneReads` states its effect |
| Copying.CarryAll | script.js:645-660 | every pair's mark carried in order; `CarryKeepsOthers` and `CarryMarks` state its effect |
| Copying.CarryMarks | script.js:645-660 | the new flow marks exactly the new ids paired with marked old ids, only `true`, and has a record only when some unit was marked |
| Copying.CopyCarriesCompletion | script.js:645-660 | the `i`-th unit of the copy is completed iff the `i`-th unit of the source is |
| Copying.RegenerateUnitIds | script.js:645-658 | the recursion builds `CopyNode` on the clock and carries the marks as `CarryAll` says |
| Copying.RegenerateAllUnitIds | script.js:660 | the `forEach` builds `CopyList` on the clock and carries the marks as `CarryAll` says |
| Propagation.RegenNode | script.js:297-311 | the clock never goes back, and moves when no target unit is given |
| Propagation.RegenFrom | script.js:314-317 | there is one copy per source unit, and the clock never goes back |
| Propagation.RegenNodeShape | script.js:292-311 | a regenerated unit has its source unit's fields and shape, ids aside |
| Propagation.RegenShape | script.js:292-317 | the regenerated forest equals the source's, ids aside |
| Propagation.RegenNodeIdMap | script.js:297-311 | the `idMap` entries pair the source ids, in preorder, with the copy's ids |
| Propagation.RegenIdMap | script.js:297-317 | `idMap`'s keys are the source's unit ids and its values the copies' ids, in preorder |
| Propagation.RegenAt | script.js:314-317 | the copy at index `j` is the one made against the target's unit `j` on the clock the earlier copies left |
| Propagation.RegenIds | script.js:297-317 | at every source address, the copy takes the target's id at that address if it exists, else a fresh id under the old id's first segment |
| Propagation.Lookup | script.js:324 | `idMap.get` finds a value exactly when some entry has the key |
| Propagation.RemapExact | script.js:320-328 | where no two old keys are renamed alike, every old entry reappears under its new key |
| Propagation.RemapKeepsForeignKeys | script.js:320-328 | a completion map that mentions no source id comes out unchanged, stale keys included |
| Propagation.RemapIdentity | script.js:322-326 | with an empty `idMap`, re-keying may give back the same map |
| Propagation.RemapCompletion | script.js:322-327 | the loop's result is a re-keying `RemapOf` allows, whatever the key order |
| Propagation.PropagationKeepsMatchedMarks | script.js:297-328 | a unit matched by position keeps the target's id, and a map mentioning no source id is kept, so its mark survives |
| Propagation.RegenerateIds | script.js:297-311 | the recursion builds `RegenNode` on the shared clock |
| Propagation.RegenerateAll | script.js:314-317 | the `forEach` builds `RegenFrom` on the shared clock |
| Propagation.PropagateStep | script.js:281-331 | one target's turn keeps the number of flows, and the clock never goes back |
| Propagation.PropagateStepTouchesOnlyData | script.js:281-331 | a missing target or one with another template is skipped; otherwise only that flow's `data` changes, to the source's shape, and `idMap`'s keys are the source's ids |
| Propagation.StepCopies | script.js:292-330 | the target found with the source's template gets the source's units, ids aside |
| Propagation.StepElsewhere | script.js:281-331 | a step leaves every flow with another id alone |
| Propagation.PropagateAll | script.js:281-331 | the loop keeps the number of flows, and the clock never goes back |
| Propagation.StepIdMap | script.js:281-331 | the `idMap` the `i`-th target is re-keyed with: empty when its step is skipped, else keyed by the source's unit ids |
| Propagation.PropagateAllKeepsOthers | script.js:281-331 | flows that are not targets are unchanged, and every flow keeps all fields but `data` |
| Propagation.PropagateAllCopies | script.js:274-332 | every linked flow found with the source's template ends with the source's units, ids aside |
| Workspace.CopyOfSpec | script.js:630-660 | the copy differs from its source in id, name and unit ids only, its unit ids are distinct, and its `i`-th unit is completed iff the source's is |
| Workspace.CopyOf | script.js:630-660 | the flow `copyWorkflow` pushes; `CopyOfSpec` states its laws |
| Workspace.AppState.CopyWorkflow | script.js:630-675 | a missing source changes nothing; otherwise the copy is pushed and becomes current, and the marks are carried |
| Workspace.AppState.CreateLinkedWorkflow | script.js:723-776 | a missing source changes nothing; otherwise `LinkedCopy`'s state (the copy as `CopyWorkflow` makes it, joined to the source's group or founding one) is then propagated from the new flow as `PropagateToLinkedWorkflows` says (the closing `saveWorkflow` in creation mode, script.js:133-135), which fixes the final flows, clock and completion records |
| Workspace.AppState.CopyAndLink | script.js:723-761 | the copy is pushed and current, the marks are carried, the links become `LinkedAfterCopy`'s, and the clock moves once more only when a group is founded |
| Workspace.LinkedCopy | script.js:723-770 | the state before the closing save: the copy is pushed last and findable by its id, and the clock has moved past the copy's ids, one more when a group is founded |
| Workspace.AppState.PropagateTo | script.js:281-331 | the flows become `PropagateStep`'s; the target's completion map is re-keyed and no other record changes |
| Workspace.AppState.PropagateToLinkedWorkflows | script.js:274-332 | an unlinked or missing source changes nothing; otherwise each linked flow in turn gets the source's units; no record is added or removed, maps that mention no source id are kept, and a target listed once has its completion map re-keyed through its own step's `idMap` |
| Workspace.AppState.PropagateEach | script.js:281-331 | the loop over the targets computes `PropagateAll`, keeps the records of flows that are not targets, and re-keys the completion map of each target listed once through its own step's `idMap` |
| Workspace.RekeyCompletion | script.js:320-328 | only the target's record changes, to a re-keying of itself; a map that mentions no key of `idMap` stays |
| Workspace.RekeyKeepsForeign | script.js:320-328 | replacing one record by its re-keying keeps every record that mentions no re-keyed id |
| Overlay.ApplyConsistent | loading-overlay.js:26-52 | every `show`, `hide` or `forceHide` keeps the overlay active exactly while the counter is positive |
| Overlay.Apply | loading-overlay.js:26-52 | one `show`, `hide` or `forceHide` on the overlay's state; `ApplyConsistent`, `ShowHideBalanced` and `ForceHideClears` state its laws |
| Overlay.RunConsistent | loading-overlay.js:26-52 | from the start, after any calls, the overlay is active exactly when the counter is positive |
| Overlay.ShowHideBalanced | loading-overlay.js:26-45 | a `show` then a `hide` restores the counter and the active flag |
| Overlay.ForceHideClears | loading-overlay.js:48-52 | once the element exists, `forceHide` clears the counter and the active flag |
| Overlay.NestedRun | loading-overlay.js:26-45 | `n` shows followed by `n` hides restore the counter and the active flag |
| Overlay.ShowsRun | loading-overlay.js:26-34 | `n` shows raise the counter by `n` and, for `n > 0`, create and activate the overlay |
| Overlay.HidesRun | loading-overlay.js:37-45 | `n` hides lower a large-enough counter by `n`, keeping the overlay active exactly while it is positive |
| Overlay.LoadingOverlay.Init | loading-overlay.js:11-23 | the element exists afterwards; an existing one keeps its caption and the counter is untouched |
| Overlay.LoadingOverlay.Show | loading-overlay.js:26-34 | the state becomes `Apply` of `Show` |
| Overlay.LoadingOverlay.Hide | loading-overlay.js:37-45 | the state becomes `Apply` of `Hide` |
| Overlay.LoadingOverlay.ForceHide | loading-overlay.js:48-52 | the state becomes `Apply` of `ForceHide` |
| Overlay.LoadingOverlay.Wrap | loading-overlay.js:55-63 | the outcome, a value or an error, passes through, with one show and one hide, so the counter and flag are as before |
| ExportConfig.DefaultType | export-to-board-module.js:297 | `skip` iff the unit is not exported, `connection` iff exported at depth at most 1, `task` iff exported deeper |
| ExportConfig.DefaultColumn | export-to-board-module.js:300-305 | `done` for completed exported units, `in-progress` for graded ones, none otherwise |
| ExportConfig.ShouldNodeBeExported | export-to-board-module.js:264-281 | the preview's scope test on the modal's controls; `PreviewAgreesWithScope` ties it to the export's rule |
| ExportConfig.BuildSelectors | export-to-board-module.js:284-339 | one selector per unit of the walk bounded by the template's levels, in preorder; each starts at the type and column the defaults give for whether the unit will be exported |
| ExportConfig.SkippedSelectorsHaveNoColumn | export-to-board-module.js:297-320 | a selector that starts as `skip` offers no column |
| ExportConfig.GetNodeDepthCorrect | export-to-board-module.js:365-376 | a reported depth belongs to a unit with that id; none is reported only when no unit has it |
| ExportConfig.GetNodeDepth | export-to-board-module.js:365-376 | the depth of the first unit in preorder with the id; `GetNodeDepthCorrect` states its soundness and completeness |
| ExportConfig.BulkType | export-to-board-module.js:406-412 | `connection` iff the depth is at most the reference level, else `task` |
| ExportConfig.ApplyBulkDynamicSetup | export-to-board-module.js:379-417 | with both toggles on, every selector whose unit is found gets the bulk type, a skipped one included; otherwise nothing changes |
| ExportConfig.ChosenTypesDomain | export-to-board-module.js:627-630 | exactly the units with a selector get a type |
| ExportConfig.ChosenTypesLastWins | export-to-board-module.js:627-630 | a unit's type is that of its last selector |
| ExportConfig.ChosenTypes | export-to-board-module.js:627-630 | the types gathered from the selectors; `ChosenTypesDomain` and `ChosenTypesLastWins` characterise them |
| ExportConfig.ChosenColumns | export-to-board-module.js:631-639 | the columns gathered from the selectors; `ChosenColumnsOnlyAssigned` characterises them |
| ExportConfig.ChosenColumnsOnlyAssigned | export-to-board-module.js:631-639 | a unit gets a column iff one of its selectors is not skipped and names a column, which is never empty |
| ExportConfig.GatherConfig | export-to-board-module.js:584-621 | rejects a blank trimmed name, `partial` with no section, `tag` with no tag, each exactly in its case; an accepted config has none of these |
| ExportConfig.PreviewAgreesWithScope | export-to-board-module.js:264-281 | the preview's `shouldNodeBeExported` and the export's scope rule agree on every unit |
| ExportCards.FindColumn | export-to-board-module.js:666 | finds the first column with the name, and none exactly when no column has it |
| ExportCards.GetColumnIdByName | export-to-board-module.js:658-668 | the first column with the mapped name, else the first column; nothing only on a board without columns |
| ExportCards.ColumnLayoutColumns | export-to-board-module.js:758-776 | column by column: fresh ids in order, orders 0 upwards, names, limits and locks as pushed |
| ExportCards.ColumnIdsDistinct | export-to-board-module.js:758-776 | no two columns share an id |
| ExportCards.ColumnLayoutShape | export-to-board-module.js:758-776 | `References` first iff reference cards are exported, then To Do, In Progress, Review, Done; only References locked; only In Progress limited |
| ExportCards.ColumnKeysResolve | export-to-board-module.js:659-667 | `todo`, `in-progress`, `review` and `done` resolve to the matching workflow columns |
| ExportCards.UnknownKeyFallsBack | export-to-board-module.js:665-667 | a key naming no column falls back to the first column |
| ExportCards.CardColumns | export-to-board-module.js:925-957 | at most two cards; at the reference level of a reference export the reference card comes first; with the dynamic list a card in the assigned column iff assigned; without it exactly one card; every column exists |
| ExportCards.Attachments | export-to-board-module.js:848-901 | one attachment per footer item, no more and no fewer |
| ExportCards.AttachmentsInOrder | export-to-board-module.js:848-901 | comments, then notes, then links, then images, each item in order as the attachment of its kind; a bare link or image string is the URL and an object gives its `url`; titles fall back to `Imported Note`, `Link` and `Image` |
| ExportCards.NoteTitle | export-to-board-module.js:868 | never empty: the note's title, else `Imported Note` |
| ExportCards.LinkUrl | export-to-board-module.js:880-881 | the link's URL: a bare string is its own URL, an object gives its `url` |
| ExportCards.LinkTitle | export-to-board-module.js:882 | never empty: `Link` for a bare string, else the text, then the title, then `Link` |
| ExportCards.ImageUrl | export-to-board-module.js:892-893 | the image's URL: a bare string is its own URL, an object gives its `url` |
| ExportCards.ImageTitle | export-to-board-module.js:894 | never empty: `Image` for a bare string, else the title, then `Image` |
| ExportCards.MakeCard | export-to-board-module.js:786-901 | the card of a unit: its title is never empty, its source is the unit, and it has one attachment per footer item |
| ExportCards.LabelsFor | export-to-board-module.js:903-919 | the lookup never moves the clock back |
| ExportCards.LabelsForGrow | export-to-board-module.js:903-919 | the palette keeps unique names and names exactly the old names plus the tags |
| ExportCards.LabelsForKeeps | export-to-board-module.js:903-919 | existing labels are never dropped or reordered |
| ExportCards.LookUpLabelGrow | export-to-board-module.js:907-915 | one tag is added to the names, and a stamp is used exactly when a label is created |
| ExportCards.AddCards | export-to-board-module.js:962-966 | one card per planned column |
| ExportCards.AddCardOk | export-to-board-module.js:786-922 | appends exactly the card `createCardForNode` builds, with the next order, and keeps the loop invariant |
| ExportCards.AddCardsOk | export-to-board-module.js:959-966 | a unit's cards sit in the planned columns in order, carry the unit as source and its tags as labels |
| ExportCards.ExportUnitOk | export-to-board-module.js:925-970 | a unit's cards follow `CardColumns`, and `cardIdMap` maps the unit to their ids in creation order when there are any |
| ExportCards.ExportUnitsOk | export-to-board-module.js:925-971 | the loop keeps its invariant: orders, existing columns, labels naming the palette, unique names, `cardIdMap` of existing cards |
| ExportCards.LabelsForCount | export-to-board-module.js:903-919 | the clock advances by the number of new labels |
| ExportCards.AddCardsStamp | export-to-board-module.js:959-966 | a unit takes one stamp per card and one per new label |
| ExportCards.ExportUnitsStamp | export-to-board-module.js:925-971 | the loop mints every id once: the clock advances by the cards and labels it creates |
| ExportCards.OneCardPerUnit | export-to-board-module.js:947-957 | without the dynamic list every unit gets exactly one card |
| ExportDynamic.LinkedCardsChoice | export-to-board-module.js:991-998 | at most one link: the second of two cards, else the only card, taken from the unit's own cards; none without cards |
| ExportDynamic.LinkedCards | export-to-board-module.js:991-998 | the cards a dynamic entry links; `LinkedCardsChoice` characterises them |
| ExportDynamic.DynEntriesFollowWalk | export-to-board-module.js:977-1043 | the entries are those of the included units of the walk in order; skipped units leave no entry but their children are walked |
| ExportDynamic.DynParentsFollowWalk | export-to-board-module.js:977-1043 | each entry's parent is the entry of its nearest included ancestor, or the given parent |
| ExportDynamic.DynamicListFollowsWalk | export-to-board-module.js:977-1045 | entry `k` is the `k`-th included unit's, and its parent is its nearest included ancestor's entry or none |
| ExportDynamic.DynamicList | export-to-board-module.js:977-1045 | the dynamic list of the flow; `DynamicListFollowsWalk`, `DynamicListIds`, `DynamicListEntries`, `DynamicListParents` and `DynamicListWellFormed` state its laws |
| ExportDynamic.SelWalkExact | export-to-board-module.js:977-989 | the walk selects exactly the included units above the depth bound |
| ExportDynamic.DynamicListIds | export-to-board-module.js:1000-1007 | entry `k` has order `k`, and ids are distinct |
| ExportDynamic.DynamicListEntries | export-to-board-module.js:1000-1034 | every entry is a connection or a task, carries task data iff a task, and links at most one of its unit's cards |
| ExportDynamic.DynamicListParents | export-to-board-module.js:1004-1040 | every parent is none or an earlier entry |
| ExportDynamic.DynamicListWellFormed | export-to-board-module.js:977-1045 | all of the above for the whole list |
| ExportDynamic.BuildDynamicNodes | export-to-board-module.js:977-1043 | the recursion pushes exactly `DynFrom`'s entries, minting one id per entry |
| ExportDynamic.VisitNode | export-to-board-module.js:980-1042 | one unit's callback pushes exactly the entries of its subtree |
| ExportDynamic.BuildDynamicList | export-to-board-module.js:1045 | the list built is `DynamicList`, and the clock advances by its length |
| Export.NodesToExportExact | export-to-board-module.js:684-714 | the units to export are exactly the units above the depth bound that pass the scope rule, each at its address and depth |
| Export.NodesToExport | export-to-board-module.js:684-714 | the in-scope units of the bounded walk; `NodesToExportExact` characterises them |
| Export.NothingToExportIff | export-to-board-module.js:714-719 | nothing to export exactly when no unit above the bound is in scope |
| Export.CollectNodes | export-to-board-module.js:684-711 | the recursion pushes exactly the in-scope units of the walk |
| Export.CollectNode | export-to-board-module.js:687-711 | one callback pushes the unit if in scope, then its in-scope descendants |
| Export.BoardCardContextOk | export-to-board-module.js:778-779 | the reference and default column ids are columns of the layout |
| Export.ExportBoardFailsIff | export-to-board-module.js:716-719 | the export fails exactly when no unit above the bound is in scope |
| Export.ExportBoard | export-to-board-module.js:673-1046 | the export as a value; `ExportBoardFailsIff` and `ExportBoardWellFormed` state its laws |
| Export.ExportBoardWellFormed | export-to-board-module.js:673-1046 | standard columns with distinct ids; card `k` has order `k` in an existing column; unique label names naming every card tag; dynamic entries link only board cards; without the list one card per unit |
| Export.CreateColumns | export-to-board-module.js:758-776 | the columns pushed are the layout, one id each |
| Export.FindLabel | export-to-board-module.js:907 | finds a label with the name exactly when the palette names it |
| Export.CreateCardForNode | export-to-board-module.js:786-922 | the card is `MakeCard` under the next id, and the palette is looked up tag by tag |
| Export.FindOrCreateLabel | export-to-board-module.js:907-915 | the palette and clock become `LookUpLabel`'s |
| Export.ExportNodeCards | export-to-board-module.js:925-970 | one callback computes `ExportUnit` |
| Export.CreateCards | export-to-board-module.js:925-971 | the card loop computes `ExportUnits` from the empty state |
| Export.ExecuteWorkflowExport | export-to-board-module.js:673-1046 | the result is `ExportBoard`; a failure uses no id; a board uses one id for itself and one per column, card, label and entry |
| Export.BuildBoard | export-to-board-module.js:721-1046 | from the collected units, builds `ExportBoard`'s board and uses one id per thing it creates |
| Export.HandleExportSubmit | export-to-board-module.js:581-653 | an invalid form is rejected with its error before any id is used; otherwise the export's result is passed on |
| LegacyExport.UnitPathDots | script.js:1155-1157 | a rendered unit path string has `2|q| - 1` dots |
| LegacyExport.HalfOf | script.js:2309 | `dots / 2` as a whole part and a half |
| LegacyExport.LevelAt | script.js:2310 | `template.levels[depth]` exists iff the depth is whole and inside the levels |
| LegacyExport.FindLabel | script.js:2376 | the id of the first label with the tag's name, and none exactly when no label has it |
| LegacyExport.LabelIdsFor | script.js:2375-2378 | at most one non-empty id per tag, each the id of a label named by one of the tags |
| LegacyExport.LabelIdsForAppend | script.js:2375-2378 | the ids for two lists of tags are those of each in turn, and one tag gives its first label's id when that is non-empty and nothing otherwise: the ids follow the tags' order |
| LegacyExport.LabelIdsForComplete | script.js:2375-2378 | every tag whose first label has a non-empty id puts that id on the card |
| LegacyExport.LegacyCardContents | script.js:2369-2427 | the card has the next `card` id, the unit's name or `Untitled <level>`, the `**Parent:**` line before the description when there is a parent name, the done or backlog column, its order and label ids; then one attachment per link with its url and text, one comment per note as bold title and content, and one per plain comment, each with the next id in turn |
| LegacyExport.AddLegacyCard | script.js:2369-2430 | pushes exactly the unit's card, numbered by the cards before it, and advances the clock by one id for the card and one per link, note and comment |
| LegacyExport.ConvertFrom | script.js:2365-2436 | the conversion only appends cards |
| LegacyExport.ConvertFromHalf | script.js:2366-2367 | at a depth that is not whole, no card is made |
| LegacyExport.ConvertFollowsWalk | script.js:2365-2436 | at a whole depth the cards pushed are, one for one, the full cards of the depth-bounded preorder walk's units, each under its parent's name, numbered in the order reached and stamped with the ids left by the cards before it; the clock advances by the whole walk's ids |
| LegacyExport.UnitCardsExact | script.js:2365-2436 | cards that follow a walk from position 0 are, index by index, the full card of the unit visited there, with order equal to the index |
| LegacyExport.Distinct | script.js:2348-2353 | the `Set` holds each tag once, exactly the tags met |
| LegacyExport.FirstOccurrences | script.js:2348-2353 | the positions where a tag appears for the first time, in increasing order |
| LegacyExport.DistinctExact | script.js:2348-2353 | the `Set` iterates the tags at their first occurrences, in that order |
| LegacyExport.TagLabels | script.js:2355-2361 | one label per distinct tag, in order, under consecutive fresh ids |
| LegacyExport.AsWrittenMakesNoCards | script.js:2309-2440 | as written, a unit without a description makes the export throw, and any other gives a board without cards |
| LegacyExport.AsWrittenExample | script.js:2309-2310 | a root with one child under a two-level template gets a board without cards |
| LegacyExport.ExportUnitToBoardAsWritten | script.js:2302-2441 | `exportUnitToBoard` with its depth computed as written; `AsWrittenMakesNoCards` and `AsWrittenExample` exhibit the flaw |
| LegacyExport.ExportUnitToBoard | script.js:2302-2441 | `exportUnitToBoard` with the depth the unit path evidently means; `ExportUnitToBoardFails` and `ExportUnitToBoardSpec` state its laws |
| LegacyExport.ExportUnitToBoardFails | script.js:2302-2326 | corrected, the export fails exactly when the unit has no description and its depth has no template level; otherwise a board comes out |
| LegacyExport.ExportUnitToBoardSpec | script.js:2302-2441 | corrected, the board has the next `board` id, the flow's and unit's names, the unit's description or else its level's, the priority labels and then one label per distinct tag; its cards are exactly the full cards (parent line, attachments, comments, ids) of the unit's descendants within the template's levels, in preorder, with ids drawn after the labels' |
| LegacyExport.UnitBoardSpec | script.js:2323-2441 | the board made for a unit found at a path is the one `ExportUnitToBoardSpec` describes |
| LegacyExport.CardLabelsExist | script.js:2375-2378 | every label id on a card is one of the board's labels, named by one of the unit's tags |
| LegacyExport.AddTagCard | script.js:2503-2523 | pushes one card after the existing ones: the next `card` id, the unit's name or `Untitled <level>`, the `**Path:**` line of its ancestors' names before the description, its column and order, the tag label only, and no attachment or comment; the clock advances by one |
| LegacyExport.CollectTagged | script.js:2497-2530 | the collection only appends cards |
| LegacyExport.TagHead | script.js:2500-2524 | a tagged unit gets its full card under its ancestors' path, and an untagged one none |
| LegacyExport.CollectTaggedFollowsWalk | script.js:2497-2530 | the cards pushed are, one for one, the full cards of the tagged units of the depth-bounded walk, in walk order, numbered and stamped in turn |
| LegacyExport.ExportTagToBoardSpec | script.js:2463-2537 | there is no board exactly when no unit above the last level carries the tag; otherwise the board has the next `board` id, the name `#<tag>`, the one tag label, and the full card of each such unit, in preorder, with ids after the board's |
| LegacyExport.ExportTagToBoard | script.js:2463-2537 | `exportTagToBoard` as a value; `ExportTagToBoardSpec` states its laws |

## Left out

- HTML rendering, modals, DOM queries, event wiring, toasts, `render`, `populateFlowSelect` and the export preview counters are not modelled. The modal's controls are the `ExportForm` input, and the selectors are `TypeSelector` values.
- `fetch` loads and saves, `save_*.php`, `JSON` encoding, `window.open`, `localStorage` (`saveToStorage`, `loadFromStorage`) and the auto-save marks are I/O and are not modelled. The flows are not saved, and failures of those calls (the `catch` branches) are not modelled.
- `confirm` is a boolean parameter (`confirmed`) and `alert` is an error value.
- `generateId` is a counter clock. Its timestamp and random suffix are not modelled.
- Colours, ISO timestamps, authors, members, schedules and other constant card and board fields are not modelled.
- `deepCopy` is a value copy.
- Grades are integers. JavaScript's floating-point numbers and `calculateProgress` are not modelled.
- `currentMode`, the mode switch, `filterByTag`'s `activeTag` state and the tag filter banner are view state and are not modelled.
- `createEmptyWorkflow` is not part of this model.
- `rememberChildrenStates` stores nothing, so `Toggle` models it as nothing.
- `getObjectByPath` on strings that address something other than a unit (`data`, a footer field) is not modelled. Addresses are index paths, and `UnitPathString` gives their string form.
- `updateUnitProperty` is modelled only through the generic `UpdateAt`.
- Units.AddChildUnitPlaces: the tree edits work on values. The source mutates the addressed object in place, so aliasing between the flow and other references to its units is not modelled.
- Units.DeleteUnitRemoves: the same applies to `parent.splice`.
- Tags.AddTagAtEffect: the same applies to `unit.tags.push`.
- Grades.UpdateAllCumulativeGrades: the same applies to `unit.grade`.
- Units.NewUnit: the level's `unitConfig` switches that decide which optional fields are created are not modelled. Every optional field takes its fallback value.
- Propagation.RemapCompletion: the order in which `Object.entries` visits the keys is not modelled. The contract admits any order, so when two old keys are renamed to the same key it does not say which value wins.
- LegacyExport.ExportUnitToBoard: the execution state is read as a value. The empty record `isCompleted` creates for the flow as a side effect is not modelled, and neither is `showToast`.
- LegacyExport.ExportTagToBoard: the same applies here.
- Overlay.LoadingOverlay.Wrap: `fn` is not called. The outcome of awaiting it is a parameter, so its own effects are not modelled.
- ExportConfig.BuildSelectors: the HTML the selectors are rendered into (labels, indentation, option lists) is not modelled; only the unit, type and column each selector starts with.
- Export.ExecuteWorkflowExport: the empty `nodeIdMap`, which the source fills but never reads, is not modelled.
- ExportCards.AttachmentsInOrder: a link or image object whose `url` is empty or missing makes `url || link` pass the object itself as the URL. Attachment URLs are strings here, so the model gives the empty `url` instead.
- ExportCards.Attachments: the same applies here.
- A bare link string read by `exportUnitToBoard` has no `url` or `text` property. The source stores `undefined` for both, and the model stores empty strings.

## Findings

| source | as written | input that shows it | evidently intended | confidence | as-written member | corrected member |
|---|---|---|---|---|---|---|
| script.js:2309-2310 | `exportUnitToBoard` takes the depth as half the number of dots in the unit's path string. A path `data.i(.subcategories.j)*` has an odd number of dots, so the depth is never whole and `template.levels[depth]` is always `undefined`. No card is ever made, and a unit without a description throws on `level.singularName`. | The root unit at `data.0`, with description "About" and one child, under a two-level template: the depth is 0.5 and the child's depth is 1.5, so the board has no card. | The depth is the unit's path length less one, so the child (depth 1) gets a card. | not executed | LegacyExport.AsWrittenMakesNoCards | LegacyExport.ExportUnitToBoardSpec |
