# glids in Dafny

glids is a command-line tool that lists the groups and projects of a GitLab
server. It can list them flat or draw them as a tree of groups, subgroups and
projects. This project models the tool's core and proves properties of it:

- the GitLab client (`internal/gitlab/client.go`):
  - its large-fetch confirmation gate, with the pause channel of the status line
  - the parsing of pagination headers
  - the decision on a typed "y"/"yes" answer
  - the paged listing of projects, groups, subgroups and a group's projects, with client-side filtering and the group-search fallback
  - the recursive population of a group tree
- the records it decodes (`internal/gitlab/types.go`)
- the text the display package draws (`internal/display/printer.go`)
- the front end's decisions (`cmd/glids/main.go`):
  - host, base URL, mode and search term
  - progress-line truncation
  - the loop that populates the root groups
  - exit codes
  - the shared column width of the "both" mode

The HTTP `get` primitive is an oracle. `Api.Remote` answers each request
(resource, page, page size, search term, recency cutoff, ordering) with a
page of items and its pagination headers, or with a failure. The model keeps
two more things about the server that the client never sees. `pageLimit`
says that no page after it has items. `rank` says that every subgroup ranks
below its parent. Together they make every page loop and every tree walk
finite.

The model has two layers:

- **Specification functions.** Each operation is a pure function in `Fetch`,
  `Hierarchy` or `Cli`. It takes the environment (`Fetch.Env`: the server,
  the cutoff, the confirmation function and the kind of pause channel) and
  the pause channel's one slot. It returns a `Step`: the value, the events
  caused (requests, prompts, pause sends) in order, and the slot left behind.
- **The client.** `GitLab.Client`, `GitLab.PauseChannel` and the channel's
  reader `GitLab.StatusReader` (the status animation) are classes. Their
  methods loop over pages, send on the channel and write populated children
  back in place, as the Go code does. A ghost `trace` records each event.
  Each method is proved to give exactly the value, the events and the slot
  of its specification function. The properties of those functions are
  proved as lemmas.

Modules:

- `Wrappers`: Option and Result
- `Text`: the string primitives of Go that are used
- `Sorting`: stable sort by a string key
- `Types`: the records
- `Confirm`: the answer decision
- `Pagination`: the headers
- `Api`: requests, replies, errors and the server
- `Fetch`: the listings as functions
- `Hierarchy`: population as functions
- `GitLab`: the client
- `Printer`: the drawn text
- `Cli`: the front end

## Model

| member | source | states |
|---|---|---|
| Confirm.RawAnswer | internal/gitlab/client.go:86-103 | In raw mode the answer is yes exactly when the one byte read is 'y' or 'Y'. A failed read, a zero-byte read, Ctrl-C and every other byte answer no. |
| Confirm.ReadLine | internal/gitlab/client.go:115-121 | Reading a line fails exactly when the input has no newline. |
| Confirm.ReadLineAt | internal/gitlab/client.go:115-116 | The line read is the input up to and including its first newline. |
| Confirm.LowerYes | internal/gitlab/client.go:122-123 | Lower-casing gives "y" or "yes" exactly for those words written in any mix of cases. |
| Confirm.LineConfirmationSound | internal/gitlab/client.go:114-124 | A yes in line mode means the first line holds "y" or "yes", in any case, with only white space around it. |
| Confirm.LineConfirmationComplete | internal/gitlab/client.go:114-124 | Such a first line is always a yes, whatever follows the newline. |
| Confirm.LineConfirmationIff | internal/gitlab/client.go:114-124 | Both directions together: line mode says yes if and only if the first line is a padded yes word. |
| Confirm.NoLineMeansNo | internal/gitlab/client.go:116-121 | Input that ends before a newline is a read error, so the answer is no. |
| Confirm.DefaultConfirm | internal/gitlab/client.go:57-110 | Raw mode is used when both streams are terminals and raw mode can be entered; its answer is the byte decision. Otherwise, including when raw mode fails, the answer is the line decision. |
| Pagination.Atoi | internal/gitlab/client.go:191 | A parsed value is always in the int64 range. The empty text and a lone sign are rejected. |
| Pagination.AtoiItoa | internal/gitlab/client.go:190-215 | Every int64 written in decimal reads back as itself. |
| Pagination.AtoiRejectsNonDigit | internal/gitlab/client.go:191 | Text with a non-digit after the first character does not parse. |
| Pagination.HeaderInt | internal/gitlab/client.go:190-194 | A field is the parsed header value. It is 0 when the header is absent, empty or not an integer. |
| Pagination.ExtractPaginationInfo | internal/gitlab/client.go:186-218 | The method fills the fields one by one from an all-zero record. The result is the record each of whose fields comes from its own header. |
| Pagination.PaginationRoundTrip | internal/gitlab/client.go:186-218 | Headers that report any int64 values are read back as exactly those values. |
| Pagination.NoHeadersNoPagination | internal/gitlab/client.go:187 | With none of the four headers, all fields stay 0. |
| Pagination.FieldsIndependent | internal/gitlab/client.go:189-215 | Changing any other header leaves a field unchanged, for each of the four fields. |
| Api.MessageHead | internal/gitlab/client.go:404-411 | Every error message other than the bare cancellation text starts with a different letter. This includes every message wrapped with %w. |
| Api.CancellationIsUnwrapped | internal/gitlab/client.go:536-581 | The text test err.Error() == "operation cancelled by user" holds exactly for the bare cancellation error. A wrapped cancellation counts as an ordinary error. |
| Fetch.Gate | internal/gitlab/client.go:130-183 | No prompt is shown if and only if the count is at most 50; then the answer is yes, with no events and the slot untouched. Above 50 the answer is the confirmation function's, given the prompt text. A resume is attempted if and only if the user said yes and a pause was delivered. A no ends the events on the declined prompt. Nothing is requested, and without a channel the slot is untouched. |
| GitLab.StatusReader.constructor | cmd/glids/main.go:203-206 | The status animation runs only when it was started: on a terminal and without debug output. |
| GitLab.StatusReader.Stop | cmd/glids/main.go:87-100 | The stop function ends the reader: from then on nobody reads the pause channel. |
| GitLab.PauseChannel.constructor | cmd/glids/main.go:183 | A new channel has an empty slot and the given reader. |
| GitLab.PauseChannel.TrySend | internal/gitlab/client.go:142-151 | A non-blocking send succeeds exactly when the one-slot buffer is empty. While the reader runs, it takes the signal at once. Otherwise the signal stays in the slot. |
| Fetch.UnreadGateFillsSlot | internal/gitlab/client.go:138-174 | With nobody reading, a prompting gate leaves a pause in the slot for good. The first pause is delivered, but its resume cannot be sent. Every later pause finds the slot full. |
| Fetch.DrainedGateKeepsSlotFree | internal/gitlab/client.go:138-174 | While the animation reads the channel, the pause and the resume are both delivered and the slot stays empty. |
| GitLab.Client.constructor | internal/gitlab/client.go:34-46 | A new client has the default confirmation function, the given channel and an empty trace. |
| GitLab.Client.SetConfirmationFunction | internal/gitlab/client.go:49-51 | Only the confirmation function changes. |
| GitLab.Client.Get | internal/gitlab/client.go:222-255 | The reply is the server's answer to the request. The trace gains exactly that request. |
| GitLab.Client.ConfirmLargeFetch | internal/gitlab/client.go:130-183 | The answer, the events and the pause slot are exactly those of Fetch.Gate. |
| Fetch.CheckResourceCount | internal/gitlab/client.go:258-288 | Any kind other than "groups" or "projects" is an error, with no request made. Otherwise exactly one request is made, for page 1 with one item per page. The search term never goes out for projects. The result is that reply's X-Total or its failure. |
| GitLab.Client.CheckResourceCount | internal/gitlab/client.go:258-288 | The result and the events are exactly those of Fetch.CheckResourceCount. |
| Fetch.Admit | internal/gitlab/client.go:438-450 | The probe's events come first, and nothing after them is a request. Without a count or without gating the listing goes ahead unasked. Otherwise the answer is the gate's. |
| GitLab.Client.CountGate | internal/gitlab/client.go:294-306 | Only with "all" set is the count probed. A successful probe is then put to the gate, and a failed one lets the listing go ahead. The result, events and slot are those of Fetch.TopAdmit. |
| GitLab.Client.ProbeGate | internal/gitlab/client.go:431-450 | The one-item probe is always sent; the gate applies only when the probe succeeds and "all" is set. The result, events and slot are those of Fetch.Admit. |
| Fetch.Paginate | internal/gitlab/client.go:308-330 | A page loop makes at least one request. |
| Fetch.Requests | internal/gitlab/client.go:311-319 | The pages are requested in order: page from, from + 1, and so on. |
| Fetch.PaginateStopsAt | internal/gitlab/client.go:308-330 | If page n is the first page that fails or is empty, the loop makes n - page + 1 requests. It returns that page's failure, or the in-order concatenation of the pages before it. |
| Fetch.FirstStop | internal/gitlab/client.go:311-330 | Every page loop stops: some page at most pageLimit + 1 fails or is empty. |
| GitLab.Client.FetchAllPages | internal/gitlab/client.go:308-330 | The loop returns the result of Fetch.Paginate from page 1. The trace gains exactly the requests for its pages, in order. |
| Fetch.KeepMatching | internal/gitlab/client.go:333-343 | Filtering never adds items. |
| Fetch.KeepMatchingMembers | internal/gitlab/client.go:336-339 | An item is kept if and only if it is in the list and its lower-cased path contains the lower-cased term. |
| Fetch.KeepMatchingAppend | internal/gitlab/client.go:336-340 | Filtering distributes over concatenation, so the original order is kept. |
| Fetch.KeepMatchingEmptyTerm | internal/gitlab/client.go:333-345 | An empty term keeps everything. |
| GitLab.KeepMatchingLoop | internal/gitlab/client.go:334-340 | The filter loop returns exactly Fetch.KeepMatching. |
| Fetch.ListingEnds | internal/gitlab/client.go:298-330 | A listing behind a gate is cancelled exactly when the gate said no. A cancelled listing ends on the declined prompt, and any other listing ends on a request. The gate's events come first. |
| Fetch.ListingSendsNoSearch | internal/gitlab/client.go:312-316 | A page loop whose requests carry no term adds no term to the events. |
| Fetch.GetProjects | internal/gitlab/client.go:292-346 | A cancellation ends on the declined prompt; any other outcome ends on a request. No request ever carries the search term. Without "all" no prompt is shown. |
| GitLab.Client.GetProjects | internal/gitlab/client.go:292-346 | The result, events and slot are exactly those of Fetch.GetProjects. |
| Fetch.Fallback | internal/gitlab/client.go:400-423 | The fallback ends on the declined prompt when cancelled and on a request otherwise. Without "all" no prompt is shown. |
| Fetch.FallbackMeaning | internal/gitlab/client.go:400-423 | The fallback has exactly the events and slot of the term-free listing. A cancellation passes through unchanged, and any other error is wrapped as an error fetching groups for manual filtering. It succeeds exactly when the re-listing does. It then keeps exactly the listed groups whose path contains the term, ignoring case. |
| GitLab.Client.Fallback | internal/gitlab/client.go:400-423 | The result, events and slot are exactly those of Fetch.Fallback. |
| Fetch.GetGroups | internal/gitlab/client.go:350-426 | A cancellation ends on the declined prompt; any other outcome ends on a request. Without "all" no prompt is shown. |
| Fetch.GetGroupsFallback | internal/gitlab/client.go:372-425 | The fallback runs, after the search's own events, if and only if a term was sent and the search returned no groups. Otherwise the result, events and slot are the search's. |
| GitLab.Client.GetGroups | internal/gitlab/client.go:350-426 | The result, events and slot are exactly those of Fetch.GetGroups, including the one-level fallback through the method's own recursive call. |
| Fetch.GetSubgroups | internal/gitlab/client.go:430-476 | The first event is the one-item probe. With "all" unset, or a failed probe, no prompt is shown. A cancellation ends on the declined prompt and any other outcome on a request. Every listed subgroup ranks below its parent. |
| Fetch.SubgroupsRankBelow | internal/gitlab/client.go:452-475 | Every group gathered by a subgroup page loop ranks below the parent. |
| GitLab.Client.GetSubgroups | internal/gitlab/client.go:430-476 | The result, events and slot are exactly those of Fetch.GetSubgroups. |
| Fetch.GetProjectsForGroup | internal/gitlab/client.go:480-526 | The first event is the one-item probe. With "all" unset, or a failed probe, no prompt is shown. A cancellation ends on the declined prompt and any other outcome on a request. |
| GitLab.Client.GetProjectsForGroup | internal/gitlab/client.go:480-526 | The result, events and slot are exactly those of Fetch.GetProjectsForGroup. |
| Hierarchy.ListingsOfWellFormed | internal/gitlab/client.go:535-552 | The client's two listings only list subgroups ranked below the parent. What they return does not depend on the pause slot. |
| Hierarchy.Zeros | internal/gitlab/client.go:569 | make([]Group, n) gives n zero-valued groups. |
| Hierarchy.CancelIndex | internal/gitlab/client.go:570-586 | This finds the first child whose population was cancelled, if there is one. |
| Hierarchy.FirstChildErrorAt | internal/gitlab/client.go:580-582 | The error recorded for the children is that of the first child that reported one, wrapped with that child's name. |
| Hierarchy.PopulateIsExpected | internal/gitlab/client.go:530-597 | Sequential population computes exactly the reference outcome Hierarchy.Expected, in which every child is populated on its own, from any pause slot. |
| Hierarchy.LoopCancels | internal/gitlab/client.go:573-577 | A cancelled child stops the loop at once. The group is returned as written so far, with the cancellation. |
| Hierarchy.LoopContinues | internal/gitlab/client.go:578-585 | Any other child is written back at its index and the loop goes on. Its error is recorded unless an earlier one was. |
| Hierarchy.ConcludeSorted | internal/gitlab/client.go:585-596 | Without a cancelled child, the subgroups are a permutation of the children's results and the projects a permutation of the group's. Each list is sorted by lower-cased name and keeps equal names in their original order. The error is the projects' error, or else the first child's. |
| Hierarchy.ConcludeWritesBack | internal/gitlab/client.go:569-586 | At the first cancelled child k, children before k are written back at their index. The rest of the slice is zero-valued, the projects are left unsorted, and the error is the cancellation. |
| Hierarchy.SubgroupFailureKeepsSubgroups | internal/gitlab/client.go:552-565 | When the subgroup listing fails, the subgroups are untouched and the projects unsorted. An error is always returned, and it is a cancellation exactly when the listing's was. |
| Hierarchy.ExpectedKeepsIdentity | internal/gitlab/client.go:530-597 | Population changes only a group's children, never its id, parent, path or name. |
| Hierarchy.PopulateKeepsIdentity | internal/gitlab/client.go:530-597 | The same holds for the sequential population. |
| Hierarchy.PopulateStopsAtCancel | internal/gitlab/client.go:536-577 | A cancellation anywhere in the tree stops all work, and the last event is the declined prompt. Otherwise the last event is a request. |
| GitLab.Client.PopulateGroupHierarchy | internal/gitlab/client.go:530-597 | The group afterwards, the error, the events and the slot are exactly those of Hierarchy.Populate. The recursion terminates through the server's rank. |
| GitLab.Client.PopulateSubgroups | internal/gitlab/client.go:569-596 | The loop over the fetched subgroups gives exactly Hierarchy.PopulateLoop: copies written back in place, the first error kept, and both lists sorted at the end. |
| Sorting.SortBySorted | internal/gitlab/client.go:589-594 | The sort is a permutation and its result is ordered by the key. |
| Sorting.SortByStable | internal/gitlab/client.go:589-594 | Elements with equal keys keep their relative order. |
| Sorting.SortBySortedIsIdentity | internal/gitlab/client.go:589-594 | Sorting an already sorted list changes nothing. |
| Sorting.LessTotal | internal/gitlab/client.go:590 | Go's `<` on strings is a total order. |
| Printer.ChildPrefix | internal/display/printer.go:82-87 | A child's prefix is the parent's plus four characters: a space for a last parent and │ otherwise, then three spaces. |
| Printer.HierarchyCount | internal/display/printer.go:50-67 | The tree has one line per descendant group or project, after an empty line and the root's "path (ID: n)" line. |
| Printer.GroupLinesCount | internal/display/printer.go:77-101 | A group node draws one line plus one per descendant. |
| Printer.GroupLinesIndented | internal/display/printer.go:79-100 | Every line under a node starts with the node's prefix and then d columns of four characters. So a node at depth d has a prefix of 4d characters. |
| Printer.ProjectLinesIndented | internal/display/printer.go:102-104 | Project lines sit directly at their prefix. |
| Printer.ChildLinesAreBlocks | internal/display/printer.go:89-100 | A group's children are drawn child after child: all subgroups first, then all projects, each in stored order. |
| Printer.ChildNode | internal/display/printer.go:71-79 | Child k's first line is a [G] line for the subgroups and a [P] line after them. Its connector is └ if and only if k is the final child, and ├ otherwise. |
| Printer.ListLineLayout | internal/display/printer.go:24-31 | A list row is path + ":", padded with spaces to the name width. Then comes a tab, then the ID right-justified in six characters. |
| Printer.ProjectList | internal/display/printer.go:21-32 | One row per project, in input order. |
| Printer.GroupList | internal/display/printer.go:36-47 | One row per group, in input order. |
| Printer.ListRowsStartWithPath | internal/display/printer.go:25-45 | Every row starts with its item's path and a colon. |
| Printer.NonPositiveWidthIsNatural | internal/display/printer.go:26-29 | With a width of 0 or less nothing is padded, and the tab follows the colon. |
| Cli.SearchTerm | cmd/glids/main.go:147-150 | A positional argument overrides --search. |
| Cli.ResolveHost | cmd/glids/main.go:153-162 | A non-empty --host wins, otherwise GITLAB_HOST is used. The host is empty if and only if both are. |
| Cli.BaseUrl | cmd/glids/main.go:171-178 | The URL is "http://" + host if and only if --nohttps is set or GLIDS_NOHTTPS is "true"; otherwise it is "https://" + host. |
| Cli.Configure | cmd/glids/main.go:164-178 | The program stops with exit 1 if and only if the token or the host is empty. Otherwise it starts with the token and the base URL. |
| Cli.SelectMode | cmd/glids/main.go:213-221 | Mode priority, in both directions: hierarchy, then groups, then projects, and both lists when no flag is set. |
| Cli.TruncateAsWritten | cmd/glids/main.go:288-296 | The truncation as written fails, by panicking, if and only if maxLen is negative. |
| Cli.ZeroWidthPanics | cmd/glids/main.go:272-296 | A terminal that reports width 0 makes the truncation panic. |
| Cli.Truncate | cmd/glids/main.go:288-296 | A line that fits is unchanged. A longer line is cut to at most maxLen characters, and to exactly maxLen ending in "..." when maxLen > 3. Otherwise the result is a prefix of the line. |
| Cli.TruncateAgrees | cmd/glids/main.go:288-296 | For every maxLen >= 0, the corrected truncation equals the code as written. |
| Cli.Shown | cmd/glids/main.go:286-302 | On a terminal a progress line is cut to fit the width less one. Off a terminal it is written whole. |
| Cli.StatusLinesNext | cmd/glids/main.go:283-302 | Each loop pass adds exactly one progress line, for the current root. |
| Cli.FailureExit | cmd/glids/main.go:234-245 | A failed listing exits 0 if and only if it was cancelled, and 1 if and only if it was not. |
| Cli.GroupsReportRows | cmd/glids/main.go:370-380 | Groups mode writes one row per group, as a permutation sorted by lower-cased path, and exits 0. |
| Cli.ProjectsReportRows | cmd/glids/main.go:401-411 | Projects mode writes one row per project, as a permutation sorted by lower-cased path, and exits 0. |
| Cli.ListModesExit | cmd/glids/main.go:353-395 | Groups and projects modes exit 1 exactly when their listing fails with an error other than a cancellation, and 0 otherwise. |
| Cli.WidestIsMaximum | cmd/glids/main.go:453-468 | The widest name is an upper bound on every len(path)+1, and some path attains it. |
| Cli.ColumnChoiceMeaning | cmd/glids/main.go:453-468 | The width is the widest name over both lists. The groups are tagged if and only if a group attains it, so groups win ties. The projects are tagged if and only if a project is strictly wider than every group. Nothing is tagged if and only if both lists are empty. |
| Cli.ColumnWidths | cmd/glids/main.go:453-468 | The two scanning loops compute exactly that width and tag. |
| Cli.ListWidths | cmd/glids/main.go:479-499 | The tagged list uses the width and the other list the width + 2. |
| Cli.BothColumnsAligned | cmd/glids/main.go:473-499 | In both mode every row's tab is at its list's width, so every name fits its column. The two widths differ by exactly two. |
| Cli.RootsShape | cmd/glids/main.go:283-325 | The roots are kept in order, each populated as its tree dictates, up to the first cancelled one. The cancelled root is not kept. A root with any other error is kept partly populated. With no cancellation every root is kept. |
| Cli.PopulateRoots | cmd/glids/main.go:283-325 | The loop's roots, cancellation flag, events and slot are exactly those of Cli.Roots. Its progress lines are one per root attempted. |
| Cli.PopulateEach | cmd/glids/main.go:283-325 | The loop body repeated until the roots run out or a cancellation breaks it. |
| Cli.PopulateNext | cmd/glids/main.go:304-324 | One pass: the root is populated, and it is kept unless the error is a cancellation. |
| Cli.HierarchyExit | cmd/glids/main.go:234-245 | Hierarchy mode exits 1 only when the first group listing fails with an error other than a cancellation. |
| Cli.StopStatus | cmd/glids/main.go:247 | clearStatus stops the status animation. The client's environment changes only in that its channel is no longer read. |
| Cli.RunHierarchy | cmd/glids/main.go:227-347 | What hierarchy mode writes, its exit code, events and slot are exactly those of Cli.HierarchyRun. The status animation reads the channel during the first listing. It is stopped once that listing succeeds, so the roots are populated with the channel unread. |
| Cli.AfterListing | cmd/glids/main.go:249-346 | With the matching groups back and the animation stopped, the output, events and slot are exactly those of Cli.HierarchyPopulate. That is a note when there are no groups; otherwise the roots are sorted, populated and reported. |
| Cli.PopulateAndReport | cmd/glids/main.go:258-347 | The matching groups are sorted by lower-cased path and populated in that order. The output is what Cli.HierarchyOutput writes for the loop's outcome: its standard output is described by Cli.HierarchyOutputMeaning, Cli.NoGroupsNoteIff and Cli.HierarchyEndsWithLastTree. |
| Cli.TreesAppend | cmd/glids/main.go:334-337 | The trees of the kept roots are written one after another, in the order the roots were kept. |
| Cli.HierarchyOutputMeaning | cmd/glids/main.go:263-341 | Hierarchy mode writes the opening line, then the cancellation note if the loop was cancelled, then the kept roots' trees in order. The no-groups note comes in place of the trees only when no root was kept and nothing was cancelled. |
| Cli.NoGroupsNoteIff | cmd/glids/main.go:334-341 | The output is the opening line and the no-groups note, and nothing else, if and only if no root was kept and nothing was cancelled. |
| Cli.HierarchyEndsWithLastTree | cmd/glids/main.go:334-337 | A report that keeps a root ends with the tree of the last root kept, so no note follows the trees. |
| Cli.RunGroups | cmd/glids/main.go:349-381 | The output, exit code, events and slot are exactly those of Cli.GroupsRun. |
| Cli.RunProjects | cmd/glids/main.go:383-412 | The output, exit code, events and slot are exactly those of Cli.ProjectsRun. |
| Cli.RunBoth | cmd/glids/main.go:414-504 | The output, exit code, events and slot are exactly those of Cli.BothRun. Projects are fetched only after the groups were listed. |
| Cli.BothLists | cmd/glids/main.go:445-504 | The end of both mode gives exactly Cli.BothReport: the two sorted lists with their chosen widths, or a note when both are empty. |

## Left out

- The HTTP transport, the authorization header, body reading and JSON decoding inside `get`. The server is an oracle from requests to replies, and a reply that fails carries one of `get`'s failure kinds.
- The logger: it has no effect on results.
- `time.Sleep`.
- The spinner goroutine's ticker, its drawing and its done channel are not modelled. Its reading of the pause channel is modelled as a `GitLab.StatusReader`. While running, the reader takes every signal at once. Once stopped, or when it was never started, nobody reads the channel and a signal stays in the slot. In hierarchy mode the reader is stopped right after the first listing succeeds; in the other modes it runs until the output is written.
- Terminal handling in `defaultConfirmFn` and the front end: `IsTerminal`, `MakeRaw`, `GetSize` and ANSI clearing. Their outcomes are parameters.
- The `tabwriter` column alignment: rows are modelled as the text handed to it. Also left out are standard-error messages other than the progress lines, and the wording of the "found N" debug lines.
- `strings.ToLower` is modelled on ASCII letters only. Go's `len` counts bytes, and the model counts characters; the two agree on ASCII paths.
- The 30-day `last_activity_after` cutoff is an opaque string fixed when the client is made, not recomputed per request from the clock.
- `pageLimit` and `rank` exist only in the model. They bound the server so that page loops and the tree walk terminate. The Go code has no cycle guard.
- Cli.GroupsReportRows, Cli.ProjectsReportRows, Cli.PopulateAndReport, Cli.BothLists, Cli.RunGroups, Cli.RunProjects, Cli.RunHierarchy: the unstable `sort.Slice` of the front end is modelled by the stable Sorting.SortBy. Only sortedness by lower-cased path and being a permutation are claimed. The "exactly" of the whole-run rows holds for the stable order, so the order of groups or projects with equal lower-cased paths is not claimed.
- In the Go code the group is passed by pointer and mutated. GitLab.Client.PopulateGroupHierarchy instead takes the group by value and returns it afterwards. The callers always work on a fresh copy, so aliasing does not arise.
- The default confirmation function is an input of the client's constructor, not a Go function the client calls.
- Fetch.Env, GitLab.Client: the confirmation function is modelled as a function of the prompt text alone, so the same prompt always gets the same answer. The program reads a new keypress or a new line from standard input for every prompt, so a repeated prompt can be answered differently. Each line-mode read also makes a new buffered reader on standard input, which can swallow input meant for later prompts; that is not modelled either.
- Hierarchy.PopulateIsExpected, Cli.RootsShape: the per-child and per-root references rely on that fixed answer. A group can be populated twice in one hierarchy run, for example "foo/bar" as a root of its own and again under the root "foo", and its prompts then recur with the same text. The program asks the user again and may get another answer; the model gives the first answer again.
- Flag parsing, `os.Getenv`, `os.Exit` and version printing (`CommitSHA[:7]`) are not modelled. Flags and environment values are inputs, and the exit code is part of `Cli.Run`.
- Cli.StatusMessage: chosen with the mode's priority; no property beyond its definition is stated.
- Cli.Shown, Cli.RunHierarchy: these model the corrected progress-line truncation (`Cli.Truncate`). On a terminal that reports width 0 the program as written panics at the first progress line. That is after printing "Populating hierarchy for found groups...", with no population and exit status 2. The model instead writes an empty progress line, populates every root and exits 0. The code as written is modelled separately by Cli.TruncateAsWritten (see Findings).
- Api.Remote: a group in a reply may already carry subgroups and projects, although JSON decoding never fills those two fields. The model does not rule such replies out; every property holds for them too, and a decoded reply is the special case with empty children.
- The search term is pasted into the request URL without escaping, so a term holding `&`, `#`, `+` or a space does not reach the server as typed. The model carries the term as a separate field of the request, and the server oracle receives it unchanged.

## Findings

| source | as written | input that shows it | evidently intended | confidence | as-written member | corrected member |
|---|---|---|---|---|---|---|
| cmd/glids/main.go:272-296 | `maxLen := terminalWidth - 1`, then `statusLine[:maxLen]` when `maxLen <= 3` | Standard error is a terminal that reports width 0 (for example a pseudo-terminal with no size set): `maxLen` is -1, every progress line is longer, and `statusLine[:-1]` panics | A width too small to show anything gives an empty progress line | not executed | Cli.TruncateAsWritten, Cli.ZeroWidthPanics | Cli.Truncate, Cli.TruncateAgrees |
