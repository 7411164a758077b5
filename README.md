# Augment front end: a Dafny model of its behaviour

Augment is a thought-capture application. A user records *thoughts*: text, an optional image and
an optional voice recording. The back end clusters the thoughts by embedding. The Next.js front end
shows them in several ways:

- a 3-D **thought cloud** whose camera glides to a selected thought, with lines drawn to its
  nearest same-cluster neighbours;
- a searchable, newest-first **thoughts list**;
- a paged **discover** feed of articles, de-duplicated by URL;
- a **flow graph** of emotion, theme and goal nodes with a detail panel, built on two Zustand
  stores;
- a **chat** layout with a session sidebar, tool-call badges and a markdown renderer that turns
  `thought://` links into buttons;
- two **forms**: the add-thought form and the thought modal. They handle typed text, pasted
  images, chosen files and recorded audio, and enforce a 2 MiB audio limit.

This project models that behaviour in Dafny and proves what the components promise. The
components' own form is kept:

- The Zustand stores and the React components with local state (camera animation, discover feed,
  forms, modal, flow search box) are classes. Their fields are the component's state and their
  methods are the event handlers and effects, with `modifies` clauses.
- The two in-place `Array.prototype.sort` calls sort an `array`, with loop invariants.
- Pure helpers (colour lookups, filters, merges, centring, formatting, form-body construction)
  are functions, with lemmas about them.

Inputs the components receive from outside are parameters of the model. These are:

- HTTP outcomes: `response.ok`, the parsed body;
- clipboard contents and chosen files;
- the object-URL factory;
- recorder blobs;
- timer expiries.

Modules:

| module | models |
|---|---|
| `Types` | the `ThoughtList`, `ChatSession` and `Thought` records |
| `Vectors` | 3-D vectors over `real` |
| `Seqs`, `Text`, `Sorting` | `filter`, `findIndex`, `trim`, `toLowerCase`, `includes`, `slice` and the two kinds of `sort` |
| `ThoughtCloud`, `CloudCamera` | `thought-cloud.tsx` |
| `ThoughtsList` | `thoughts-list.tsx` |
| `Discover` | `discover.tsx` |
| `FlowStore`, `ExploreChatStore` | the two Zustand stores |
| `ThoughtFlow`, `NodesEdges`, `NodeDisplay` | the flow page, its custom nodes and edges, and the detail panel |
| `SessionSidebar`, `ChatLayout`, `ToolDisplay`, `Markdown` | the chat components |
| `Uploads` | clipboard items, files, audio blobs and multipart form bodies |
| `AddThought`, `ThoughtModal` | the two forms |

## Model

| member | source | states |
|---|---|---|
| ThoughtCloud.LabelColor | src/components/explore/thought-cloud.tsx:11-23 | a cluster label picks palette entry `label % 11`, always one of the eleven colours |
| ThoughtCloud.LabelColorPeriodic | src/components/explore/thought-cloud.tsx:44 | labels that differ by the palette length get the same colour |
| ThoughtCloud.ConvertToThoughtNodes | src/components/explore/thought-cloud.tsx:38-47 | one node per thought, in order, keeping id, title, excerpt, position and label, coloured by label |
| ThoughtCloud.CenterThoughtPositions | src/components/explore/thought-cloud.tsx:49-73 | the loop that sums positions and subtracts the centroid computes exactly `Centered`; the empty list is returned unchanged |
| ThoughtCloud.CenteredSumIsZero | src/components/explore/thought-cloud.tsx:49-73 | after centring a non-empty cloud, the positions sum to the origin |
| ThoughtCloud.CentroidOfCentered | src/components/explore/thought-cloud.tsx:49-73 | after centring a non-empty cloud, the centroid is the origin |
| ThoughtCloud.CenteringIsIdempotent | src/components/explore/thought-cloud.tsx:49-73 | centring an already centred cloud changes nothing |
| ThoughtCloud.SingleNodeCentered | src/components/explore/thought-cloud.tsx:49-73 | a single thought is moved to the origin |
| ThoughtCloud.CenteredKeepsFields | src/components/explore/thought-cloud.tsx:63-72 | centring keeps the length and changes only positions |
| ThoughtCloud.SumOfShifted | src/components/explore/thought-cloud.tsx:66-72 | shifting n positions by c moves their sum by n·c |
| ThoughtCloud.Candidates | src/components/explore/thought-cloud.tsx:137-138 | the neighbour candidates are exactly the other thoughts (by id) with the selected thought's label |
| ThoughtCloud.Neighbours | src/components/explore/thought-cloud.tsx:137-143 | at most four candidates, sorted by distance to the selected thought, all taken from the candidates |
| ThoughtCloud.NeighboursAreNearest | src/components/explore/thought-cloud.tsx:139-143 | a candidate that is left out is no nearer than any chosen neighbour |
| ThoughtCloud.NeighbourTiesKeepInputOrder | src/components/explore/thought-cloud.tsx:139-143 | neighbours at equal distance keep their order in the input (the sort is stable) |
| ThoughtCloud.ConnectionLines | src/components/explore/thought-cloud.tsx:133-158 | no lines without a selection; otherwise a (selected position, neighbour position) pair for each neighbour, in order |
| ThoughtCloud.NextSelection | src/components/explore/thought-cloud.tsx:243-245 | a marker click toggles that thought; a click on the bare canvas or Reset View clears the selection; any other click keeps it |
| ThoughtCloud.ClickTwiceRestores | src/components/explore/thought-cloud.tsx:243-245 | clicking marker t twice leaves t selected if it was and nothing selected otherwise, so it restores the starting selection exactly when that was empty or t |
| ThoughtCloud.ClickOtherSwitches | src/components/explore/thought-cloud.tsx:243-245 | clicking a different marker moves the selection to it |
| CloudCamera.DesiredCameraPosition | src/components/explore/thought-cloud.tsx:186-196 | 3.5 in front of the selected thought along z, else the default camera position |
| CloudCamera.DesiredLookAt | src/components/explore/thought-cloud.tsx:186-196 | the selected thought's position, else the origin |
| CloudCamera.FocusDistance | src/components/explore/thought-cloud.tsx:187-190 | when focused, the camera stands exactly 3.5 from what it looks at |
| CloudCamera.OverviewDistance | src/components/explore/thought-cloud.tsx:8 | in the overview, the camera stands 5 from the origin it looks at |
| CloudCamera.AutoRotate | src/components/explore/thought-cloud.tsx:233 | auto-rotation is on exactly when nothing is selected |
| CloudCamera.AutoRotateOnlyAtOverview | src/components/explore/thought-cloud.tsx:233 | auto-rotation runs only with the camera at the overview pose; otherwise it is 3.5 from its target |
| CloudCamera.EaseShrinks | src/components/explore/thought-cloud.tsx:205-209 | one 5% lerp step multiplies the squared distance to the target by 0.9025 |
| CloudCamera.EaseFramesShrink | src/components/explore/thought-cloud.tsx:203-221 | after k frames, the squared distance is 0.9025^k times the starting one |
| CloudCamera.SettlesWithin | src/components/explore/thought-cloud.tsx:219-220 | once k ≥ 7m frames have passed and the squared distance is below 0.01·2^m (about 7·log2(100·d) frames), the camera is within the 0.1 stop threshold, so the animation ends |
| CloudCamera.FiveUnitJumpSettles | src/components/explore/thought-cloud.tsx:203-221 | a 5-unit camera jump is within the stop threshold after 84 frames |
| CloudCamera.CameraDirector.constructor | src/components/explore/thought-cloud.tsx:8 | the camera starts at the default position looking at the origin, not animating |
| CloudCamera.CameraDirector.Retarget | src/components/explore/thought-cloud.tsx:178-197 | without controls nothing changes; otherwise it records the current pose, sets the desired targets and starts animating |
| CloudCamera.CameraDirector.Frame | src/components/explore/thought-cloud.tsx:199-222 | while animating, it eases pose and look-at 5% toward their targets, and stops once both are within 0.1; targets are unchanged |
| CloudCamera.CameraDirector.ControlsMoved | src/components/explore/thought-cloud.tsx:230-237 | a user drag moves only the live camera and controls target |
| ThoughtsList.CardColor | src/components/explore/thoughts-list.tsx:115 | a card's colour is entry `label % 7` of the seven card colours |
| ThoughtsList.CardColorPeriodic | src/components/explore/thoughts-list.tsx:115 | labels that differ by seven share a card colour |
| ThoughtsList.FilteredThoughts | src/components/explore/thoughts-list.tsx:39-50 | a blank query returns the list itself; otherwise exactly the thoughts whose lower-cased title or excerpt, or decimal label, contains the lower-cased query |
| ThoughtsList.FilterKeepsOrder | src/components/explore/thoughts-list.tsx:44-49 | filtering distributes over concatenation, so relative order is kept |
| ThoughtsList.SearchIgnoresCase | src/components/explore/thoughts-list.tsx:43 | queries that differ only in ASCII case give the same result |
| ThoughtsList.LabelDigitsMatchBySubstring | src/components/explore/thoughts-list.tsx:48 | the label is matched as a substring of its decimal text: label 12 matches "1" and "2" |
| ThoughtsList.ResultCountText | src/components/explore/thoughts-list.tsx:96-103 | no text for an empty query; otherwise "No thoughts found", "1 thought found" or "n thoughts found" |
| ThoughtsList.SortThoughtsByTime | src/components/explore/thoughts-list.tsx:24-28 | sorts the array in place, newest first, as a permutation of its contents |
| ThoughtsList.DeleteThought | src/components/explore/thoughts-list.tsx:61-64 | removes every thought with the id and keeps every other one |
| ThoughtsList.DeleteUnknownIsIdentity | src/components/explore/thoughts-list.tsx:61-64 | deleting an absent id leaves the list as it was |
| ThoughtsList.DeleteKeepsOrder | src/components/explore/thoughts-list.tsx:62 | deletion distributes over concatenation, so order is kept |
| ThoughtsList.DeleteIsIdempotent | src/components/explore/thoughts-list.tsx:61-64 | deleting twice is the same as deleting once |
| ThoughtsList.Excerpt | src/components/explore/thoughts-list.tsx:56 | the excerpt is the first min(100, length) characters of the text |
| ThoughtsList.UpdateThought | src/components/explore/thoughts-list.tsx:52-59 | updates in place the first thought with the edited id (title, excerpt, created_at) and nothing else; an unknown id changes nothing |
| ThoughtsList.UpdateKeepsIds | src/components/explore/thoughts-list.tsx:52-59 | an update keeps the length and every id of the list |
| Discover.Fresh | src/components/explore/discover.tsx:50-52 | exactly the batch articles whose URL was not shown before |
| Discover.Merge | src/components/explore/discover.tsx:46-54 | keeps the shown articles as a prefix and appends only unseen URLs from the batch; afterwards every batch URL is shown |
| Discover.MergeKeepsBatchOrder | src/components/explore/discover.tsx:46-54 | merging a split batch is merging the first part, then the fresh articles of the second, in order |
| Discover.MergeIsIdempotent | src/components/explore/discover.tsx:46-54 | merging the same batch again adds nothing |
| Discover.MergeKeepsUrlsDistinct | src/components/explore/discover.tsx:46-54 | distinct URLs stay distinct when the batch itself has distinct URLs |
| Discover.BatchDuplicatesSurvive | src/components/explore/discover.tsx:50-52 | two articles with one URL in the same batch are both kept, because only earlier pages are checked |
| Discover.AuthorLine | src/components/explore/discover.tsx:124-132 | no author line for missing or empty authors; one author alone; otherwise "first +n" |
| Discover.DiscoverFeed.constructor | src/components/explore/discover.tsx:23-27 | no articles, page 0, not loading, Load More enabled |
| Discover.DiscoverFeed.StartFetch | src/components/explore/discover.tsx:30-35 | requests limit 3 at offset page·3 and sets loading |
| Discover.DiscoverFeed.FinishFetch | src/components/explore/discover.tsx:42-55 | an empty batch disables Load More; articles become the merge; loading ends; a failed fetch leaves the feed and the loading flag as they were |
| Discover.DiscoverFeed.LoadMore | src/components/explore/discover.tsx:163-167 | moves to the next page unless disabled |
| FlowStore.NodeWithId | src/store/flow-store.ts:23-26 | finds a node with the id, or None exactly when no node has it |
| FlowStore.NodeWithIdPicksFirst | src/store/flow-store.ts:23-26 | the first node with the id is the one found |
| FlowStore.FlowStore.constructor | src/store/flow-store.ts:15-22 | empty graph, empty current id, no current node |
| FlowStore.FlowStore.SetFlow | src/store/flow-store.ts:18 | replaces nodes and edges and leaves the selection alone |
| FlowStore.FlowStore.ClearFlow | src/store/flow-store.ts:19 | empties nodes and edges and leaves the selection alone |
| FlowStore.FlowStore.SetCurrentNodeId | src/store/flow-store.ts:23-26 | sets the id and looks its node up in the current graph; the graph is unchanged and the selection is consistent with it |
| FlowStore.StaleNodeAfterClear | src/store/flow-store.ts:19 | after a node is selected and the flow is cleared, the store still holds that node while the graph is empty |
| ExploreChatStore.ExploreChatStore.constructor | src/store/explore-chat-store.ts:19-35 | no session, no name, no thought, sidebar closed |
| ExploreChatStore.ExploreChatStore.SetActiveSessionId | src/store/explore-chat-store.ts:21 | sets only the active session id |
| ExploreChatStore.ExploreChatStore.SetNewSession | src/store/explore-chat-store.ts:22 | clears only the active session id; doing it twice is the same as once |
| ExploreChatStore.ExploreChatStore.SetCurrentSessionName | src/store/explore-chat-store.ts:24 | sets only the session name |
| ExploreChatStore.ExploreChatStore.SetCurrentThoughtId | src/store/explore-chat-store.ts:32 | sets only the thought id |
| ExploreChatStore.ExploreChatStore.SetIsSidebarOpen | src/store/explore-chat-store.ts:34 | sets only the sidebar flag |
| ThoughtFlow.RequestMessage | src/components/explore/flow/thought-flow.tsx:30-33 | the request message is the query followed by one "?" |
| ThoughtFlow.ThoughtFlowSearch.constructor | src/components/explore/flow/thought-flow.tsx:21-41 | starts with empty input and query, so nothing is fetched |
| ThoughtFlow.ThoughtFlowSearch.HandleInputChange | src/components/explore/flow/thought-flow.tsx:50-52 | typing changes only the input, not the submitted query |
| ThoughtFlow.ThoughtFlowSearch.HandleKeyDown | src/components/explore/flow/thought-flow.tsx:54-59 | Enter submits the input as the query and clears the input; any other key changes nothing |
| ThoughtFlow.ThoughtFlowSearch.HandleClear | src/components/explore/flow/thought-flow.tsx:61-64 | clears input and query, which disables fetching |
| ThoughtFlow.OnFlowData | src/components/explore/flow/thought-flow.tsx:44-48 | arriving data replaces the graph in the flow store; no data changes nothing; the selection is untouched |
| NodesEdges.StyleFor | src/components/explore/flow/custom/nodes-edges.tsx:53-54 | a known node type gets its style; any other type gets the connector style |
| NodesEdges.DotColor | src/components/explore/flow/custom/nodes-edges.tsx:99-107 | red, blue and green dots for emotion, theme and goal; gray otherwise |
| NodesEdges.DotFollowsStyle | src/components/explore/flow/custom/nodes-edges.tsx:99-107 | a node drawn in the connector style has a gray dot |
| NodesEdges.TypeLabel | src/components/explore/flow/custom/nodes-edges.tsx:110 | every underscore becomes a space and nothing else changes |
| NodesEdges.ThoughtCount | src/components/explore/flow/custom/nodes-edges.tsx:83 | the count is the number of thought ids, 0 when absent |
| NodesEdges.NodeClicked | src/components/explore/flow/custom/nodes-edges.tsx:68 | clicking a node selects it in the flow store |
| NodesEdges.EdgePathFor | src/components/explore/flow/custom/nodes-edges.tsx:142-144 | a cubic curve from source to target whose control points sit 50 to the right of the source and 50 to the left of the target |
| NodesEdges.EdgePathTranslates | src/components/explore/flow/custom/nodes-edges.tsx:142-144 | moving both ends moves the whole path by the same offset |
| NodesEdges.LabelBox | src/components/explore/flow/custom/nodes-edges.tsx:165-169 | the 200×30 label box is centred on the midpoint of the edge |
| NodesEdges.EdgeLabel | src/components/explore/flow/custom/nodes-edges.tsx:179 | a missing or empty label reads "evolved to"; the label is never empty |
| NodesEdges.ArrowCircle | src/components/explore/flow/custom/nodes-edges.tsx:183-186 | the arrow dot has radius 4 and sits 10 before the target |
| NodesEdges.ArrowOnApproach | src/components/explore/flow/custom/nodes-edges.tsx:183-186 | the arrow dot lies on the line from the last control point to the target |
| NodeDisplay.ConfigFor | src/components/explore/flow/custom/node-display.tsx:48-51 | the panel configuration of a known type, else the connector's |
| NodeDisplay.BadgeTitles | src/components/explore/flow/custom/node-display.tsx:16-41 | the type badge reads Theme, Emotion, Goal or, for any other type, Connection |
| NodeDisplay.RelatedRows | src/components/explore/flow/custom/node-display.tsx:114-127 | one row per related thought id, numbered from 1 in order; none when absent or empty |
| NodeDisplay.RelatedRowsNumbered | src/components/explore/flow/custom/node-display.tsx:114-127 | row numbers are consecutive from 1 |
| NodeDisplay.Display | src/components/explore/flow/custom/node-display.tsx:46-142 | no panel without a current node; otherwise its heading, summary, count badge when thought ids exist, related rows and node id |
| NodeDisplay.Close | src/components/explore/flow/custom/node-display.tsx:95 | closing selects the empty id; when no node has that id, the panel disappears |
| SessionSidebar.SortSessions | src/components/chat/session-sidebar.tsx:125-130 | sorts sessions in place by updated_at, newest first, as a permutation |
| SessionSidebar.SessionTitle | src/components/chat/session-sidebar.tsx:146-148 | titles longer than the limit are cut and end in "..."; others are shown whole |
| SessionSidebar.SelectedSessionName | src/components/chat/session-sidebar.tsx:80-87 | the non-empty title of the first session with the id; None without sessions, without a match, or when the first match's title is empty, even if a later session with that id has a title |
| SessionSidebar.FirstMatchNamesSelection | src/components/chat/session-sidebar.tsx:80-87 | the first session with the id provides the name |
| SessionSidebar.HandleSessionSelect | src/components/chat/session-sidebar.tsx:80-87 | makes the session active, sets its name and closes the sidebar |
| SessionSidebar.HandleDeleteSession | src/components/chat/session-sidebar.tsx:67-78 | once the response body parses, whatever the status, a new session starts (`response.ok` is never read); if the body fails to parse, nothing changes |
| ChatLayout.HeaderTitle | src/components/chat/chat-layout.tsx:55-57 | "Chat" without a name; otherwise the name, cut with "..." when too long |
| ChatLayout.ToggleSidebar | src/components/chat/chat-layout.tsx:45 | flips the sidebar flag and nothing else |
| ChatLayout.OverlayClick | src/components/chat/chat-layout.tsx:18-23 | clicking the visible overlay closes the sidebar, which hides the overlay |
| ToolDisplay.DisplayName | src/components/chat/tool-display.tsx:24-27 | known tools get their friendly name; others keep their own |
| ToolDisplay.KnownToolNamesDistinct | src/components/chat/tool-display.tsx:3-7 | different known tools never share a friendly name |
| ToolDisplay.ToolBadge | src/components/chat/tool-display.tsx:24-40 | a pending dot exactly while the call runs, a done dot exactly once it has a result, never both |
| ToolDisplay.ToolBadges | src/components/chat/tool-display.tsx:12-13 | one badge slot per message part, filled exactly for tool invocations |
| ToolDisplay.SearchQueryShownWhilePending | src/components/chat/tool-display.tsx:31-37 | a web search shows its query only while pending |
| Markdown.CustomLink | src/components/general/markdown.tsx:26-47 | `thought://` links become a button span; other links open in a new tab with noopener |
| Markdown.ThoughtLinksHaveNoHref | src/components/general/markdown.tsx:28-34 | a thought link never renders an anchor |
| Markdown.BuildSchema | src/components/general/markdown.tsx:13-23 | extends the default sanitize schema so that anchors allow href and `thought` joins the href protocols; all else is kept |
| Uploads.PastedImage | src/components/thoughts/add-thought.tsx:91-104 | the file of the first clipboard item that is an image and has a file; None exactly when there is no such item |
| Uploads.Entry | src/components/thoughts/add-thought.tsx:47-61 | a form field is appended only when its value is present |
| Uploads.FieldNamedFindsFirst | src/components/thoughts/add-thought.tsx:47-61 | reading a field finds its first entry, or None when there is none |
| Uploads.FieldNamedAppend | src/components/thoughts/add-thought.tsx:47-61 | fields of earlier entries shadow later ones |
| Uploads.FieldNamedAfter | src/components/thoughts/add-thought.tsx:47-61 | appending one optional field changes only that name's value, and only if it was unset |
| Uploads.AudioValue | src/components/thoughts/add-thought.tsx:58-61 | the recording is sent as a blob named audio.webm, when present |
| Uploads.ImageValue | src/components/thoughts/add-thought.tsx:53-56 | the image is sent as its file, when present |
| AddThought.SubmitFormFields | src/components/thoughts/add-thought.tsx:47-61 | the body has text (when non-empty), image and audio, each as chosen, and at most three fields |
| AddThought.SubmitDisabled | src/components/thoughts/add-thought.tsx:456-458 | Submit is disabled exactly when the text is blank, no image is chosen and nothing is recording |
| AddThought.AddThoughtForm.constructor | src/components/thoughts/add-thought.tsx:16-36 | an empty form, no status, form shown |
| AddThought.KeptInsertion | src/components/thoughts/add-thought.tsx:278 | `maxLength` lets in the longest prefix of an insertion that keeps the text within 3000 characters: all of it when it fits, none at the limit |
| AddThought.AddThoughtForm.EditText | src/components/thoughts/add-thought.tsx:257-279 | an edit anywhere in the text keeps the surrounding text and inserts only what fits within 3000 characters, so typing mid-text at the limit changes nothing; the text never grows past the limit |
| AddThought.AddThoughtForm.BeginSubmit | src/components/thoughts/add-thought.tsx:39-62 | an audio blob over 2 MiB blocks the request with an error; otherwise it sends the form body and shows the loading message |
| AddThought.AddThoughtForm.FinishSubmit | src/components/thoughts/add-thought.tsx:72-82 | success or failure status with its message |
| AddThought.AddThoughtForm.AddNewThought | src/components/thoughts/add-thought.tsx:226-231 | clears status, text, image and recording flag, showing the form again |
| AddThought.AddThoughtForm.HandlePaste | src/components/thoughts/add-thought.tsx:85-111 | the first pastable image becomes the file; the paste is intercepted exactly when some item is an image; the paste-off timer is scheduled only for a file |
| AddThought.AddThoughtForm.PasteTimerFired | src/components/thoughts/add-thought.tsx:107-109 | the pasting flag goes off |
| AddThought.AddThoughtForm.FileChosen | src/components/thoughts/add-thought.tsx:113-118 | the first chosen file becomes the image; no file changes nothing |
| AddThought.AddThoughtForm.RemoveImage | src/components/thoughts/add-thought.tsx:363 | the image is cleared |
| AddThought.AddThoughtForm.RemoveAudio | src/components/thoughts/add-thought.tsx:390-395 | blob, URL and recording flag are cleared |
| AddThought.AddThoughtForm.ToggleRecording | src/components/thoughts/add-thought.tsx:120-175 | flips recording; stopping checks the blob held before this stop against 2 MiB and reports an error when it is too large |
| AddThought.AddThoughtForm.RecordingStopped | src/components/thoughts/add-thought.tsx:138-145 | the recorder's blob and its URL are stored |
| AddThought.OversizedRecordingCaughtAtSubmit | src/components/thoughts/add-thought.tsx:163-171 | an oversized first recording passes the stop check, is stored, and is refused at submit |
| ThoughtModal.SaveFormFields | src/components/explore/thought-modal.tsx:153-169 | the save body carries title, text content, and image and audio when chosen |
| ThoughtModal.SaveDisabled | src/components/explore/thought-modal.tsx:534-538 | Save is disabled while saving or when the loaded thought has an empty title or content |
| ThoughtModal.ThoughtModalState.constructor | src/components/explore/thought-modal.tsx:42-60 | nothing loaded, no media, no flags set |
| ThoughtModal.ThoughtModalState.ThoughtIdChanged | src/components/explore/thought-modal.tsx:63-82 | a non-empty id resets the draft and media and starts a fetch; an empty id does nothing else |
| ThoughtModal.ThoughtModalState.ThoughtFetched | src/components/explore/thought-modal.tsx:76-78 | a successful fetch loads the thought; a failed one keeps the draft |
| ThoughtModal.ThoughtModalState.EditTitle | src/components/explore/thought-modal.tsx:294-299 | only the draft's title changes |
| ThoughtModal.ThoughtModalState.EditContent | src/components/explore/thought-modal.tsx:319-324 | only the draft's content changes |
| ThoughtModal.ThoughtModalState.BeginSave | src/components/explore/thought-modal.tsx:149-170 | nothing happens without a draft; oversized audio alerts and is dropped; otherwise it sends the save body built from the current draft, remembers that draft, and starts loading |
| ThoughtModal.ThoughtModalState.FinishSave | src/components/explore/thought-modal.tsx:179-186 | on success it reports the draft the request was built from, closes and ends loading; on failure the dialog stays open, and loading ends only if the error body parses as JSON |
| ThoughtModal.SaveReportsSentDraft | src/components/explore/thought-modal.tsx:149-186 | a successful save reports the draft whose title and content the request carried, so a title typed while the request is pending is neither sent nor reported |
| ThoughtModal.SaveStuckAfterUnparsableError | src/components/explore/thought-modal.tsx:179-186 | a failed save whose error body is not JSON leaves loading on, so Save stays disabled with the dialog open |
| ThoughtModal.ThoughtModalState.HandleDelete | src/components/explore/thought-modal.tsx:232-251 | a request is sent only with a draft; success reports the id and closes |
| ThoughtModal.ThoughtModalState.Cancel | src/components/explore/thought-modal.tsx:527 | the modal closes |
| ThoughtModal.ThoughtModalState.RemoveImage | src/components/explore/thought-modal.tsx:355-361 | the chosen file and the draft's image URL are cleared |
| ThoughtModal.ThoughtModalState.FileChosen | src/components/explore/thought-modal.tsx:189-199 | the first chosen file becomes the image and its object URL the draft's image URL |
| ThoughtModal.ThoughtModalState.HandlePaste | src/components/explore/thought-modal.tsx:201-230 | the first pastable image becomes the image with its URL; a timer is scheduled for any clipboard |
| ThoughtModal.ThoughtModalState.PasteTimerFired | src/components/explore/thought-modal.tsx:229 | the pasting flag goes off |
| ThoughtModal.ThoughtModalState.ToggleRecording | src/components/explore/thought-modal.tsx:84-147 | starting snapshots the draft; stopping checks the previous blob against 2 MiB and alerts when it is too large |
| ThoughtModal.ThoughtModalState.RecordingStopped | src/components/explore/thought-modal.tsx:102-115 | stores blob and URL and writes the snapshot taken at start back as the draft, with the new audio URL |
| ThoughtModal.TitleEditDuringRecordingIsLost | src/components/explore/thought-modal.tsx:102-115 | a title typed while recording is overwritten when the recording stops |
| Sorting.StableSortKeepsKeyClasses | src/components/explore/thought-cloud.tsx:139-142 | the comparator sort keeps elements of equal key in input order |
| Text.TrimEmptyIffBlank | src/components/thoughts/add-thought.tsx:456-458 | `trim()` yields the empty string exactly for blank text |

## Left out

- Rendering: JSX layout, Tailwind classes beyond the colour tables, three.js meshes, the
  pulsing and scaling of markers, fonts, icons and animations.
- Floating point: positions and distances are `real`. Distances are compared squared, which orders
  exactly like the square roots. IEEE rounding is not modelled.
- `OrbitControls` internals (damping, auto-rotate speed, zoom limits): only auto-rotate's on/off
  and the camera pose the component writes are modelled.
- Network, authentication and caching: each request's outcome (`response.ok`, the parsed body) is
  a parameter; `fetch`, `getToken`, React Query and SWR are not modelled.
- Media APIs: `MediaRecorder`, `getUserMedia` (including its failure path) and `createObjectURL`
  become event methods and a function parameter.
- Timers: `setTimeout` callbacks are the explicit `PasteTimerFired` events.
- Date parsing and time zones: `created_at` and `updated_at` are integer timestamps.
- Lower-casing: only ASCII letters are folded; Unicode case folding is not modelled.
- Labels are natural numbers; negative cluster labels are not modelled.
- Object identity: JavaScript compares the selected thought by reference; the model compares
  values.
- The chat transport (`useChat`, streaming) and page wiring files are not part of this model.
- The markdown library's own parsing and sanitising: only the schema extension and the link
  renderer are modelled.
- The node panel's intensity bar: it is floating-point percentage arithmetic.
- SVG path strings: the edge path is modelled as points, not as formatted text.
- Aliasing: `sortThoughtsByTime` sorts the filtered array in place, and for a blank query that is
  the parent's array. Each sort is modelled on its own array.
- SortThoughtsByTime: the result is a sorted permutation. The contract does not state that equal
  timestamps keep their order, though `Array.prototype.sort` is stable and so is the model's
  insertion sort, which swaps only on a strict comparison.
- SortSessions: the result is a sorted permutation. The contract does not state that equal
  `updated_at` values keep their order, although both the source's sort and the model's are stable.
- The recorder-null guard in both forms is unreachable once recording has started, so it is not
  modelled.
- The modal's delete handler schedules a paste-off timer as well. It only turns `isPasting` off,
  which `PasteTimerFired` already models.
- Races between overlapping fetches in the modal and the discover feed are not modelled: a
  response is applied when it arrives.
- Excerpt: lengths count Unicode code points, while JavaScript's `slice(0, 100)` counts UTF-16
  code units, so text with characters outside the Basic Multilingual Plane is cut later in the model.
- UpdateThought: the excerpt it writes is cut at 100 code points, not 100 UTF-16 code units, as for
  `Excerpt`.
- SessionTitle: the 25-character limit counts code points, not UTF-16 code units, so a title of
  emoji can be shown whole where the source cuts it (possibly inside a surrogate pair).
- HeaderTitle: the 30-character limit counts code points, not UTF-16 code units.
- EditText: the 3000-character `maxLength` counts code points, not UTF-16 code units.
- HandleInputChange, HandleKeyDown: the search input is disabled while the flow query loads, so neither handler fires then; the model has no loading state and accepts both at any time.
- StyleFor: a node type naming an inherited `Object.prototype` member (such as "constructor") finds
  that member in the source's object lookup; the model gives the connector style.
- ConfigFor: a node type naming an inherited `Object.prototype` member finds that member in the
  source; the model gives the connector configuration.
- DisplayName: a tool name naming an inherited `Object.prototype` member shows that member's text in
  the source; the model shows the tool name itself.
- The thought cloud has no search filter in the code, so none is modelled. Centring an empty cloud
  returns the empty list, as the code does.
