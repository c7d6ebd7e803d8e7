# DBX core: a verified model

A Dafny model of the parts of DBX, a database client, whose correctness is hardest to see by reading,
with proofs of what they promise. `dafny verify dfyconfig.toml` checks all of it.

- **Xugu runtime** (`XuguRuntime`, `XuguLocks`, `XuguInvariants`, `XuguSteps`, `XuguLinks`, `XuguRegistry`,
  `XuguSafety`, `XuguRuns`, `XuguRequests`, `XuguCrash`, `XuguReconnect`, `XuguCancel`, `XuguConnections`, `XuguOutcomes`). The session registry, shared control connections, reconnect and cancel as a
  step machine: one step per lock-protected region, every thread a program counter with its locals, every
  mutex explicit, database answers chosen by the environment. The theorems quantify over all runs:
  reference counts are conserved, a control connection lives exactly as long as it has a holder, cancel
  targets are never shared, every cancel of a running statement sends exactly its own kill, no connection is
  dropped unclosed, and mutexes never deadlock. A validation that finds no control handle (after a
  failed reconnect or a racing close) is a crash of the model; in every interleaving it happens exactly when
  the session had no handle as the validation took session.mu, and both ways there are given as runs from
  the empty runtime.
- **Oracle SQL text engine** (`SqlText`, `SqlLexer`, `SqlScanners`, `SqlBinds`, `SqlIdentifiers`,
  `SqlSegments`, `SqlLists`, `XmlRewrite`, `XmlReparse`, `XmlItems`, `XmlIdempotent`, `XmlMeaning`,
  `XmlTable`, `XmlLosses`,
  `XmlShift`, `XmlNested`, `XmlComplete`, `LikePattern`). All scanners refine one reference lexer. The XMLTYPE rewrite is proved to
  preserve what the select list yields on every row, to be idempotent on its own output, and, nested, to
  touch only disjoint balanced parentheses that start with SELECT; the table is the one the tokens behind FROM
  name, and a statement is rewritten exactly when an item shows an XMLTYPE column of it; where its conditions fail, what is lost
  is stated too, down to a statement that two trailing blanks destroy. LIKE patterns are proved against the
  like predicate of section 8.5 of ISO/IEC 9075-2.
- **Result paging** (`Paging`, `CursorTable`). The look-ahead cursor refines the one-shot read for every
  sequence of page sizes; the stored-session tables and the table of open result sets stay in step.
- **Agent loop** (`Conversation`, `AgentLoop`). Compaction, retry, repair and tool execution; every request
  is a conversation in which each tool-calling assistant is followed by exactly its results, and every run
  follows one event protocol to a single final AgentEnd. What each turn sends, shows and carries to the next is
  a function of the model's answers and the tool results.
- **Provider streams and messages** (`StreamFraming`, `ToolCallStream`, `StreamedCalls`, `ResponsesCalls`,
  `ProviderMessages`, `ProviderForms`). Stream results depend on the bytes and not on the chunks (a subset of section 9.2.6 of
  the HTML Living Standard); tool calls are accumulated as the events say, and a Responses item
  keeps its arguments exactly when none were sent before its announcement; conversion to Claude and Gemini
  form is undone by an independent reader and keeps answers next to their calls.
- **Resumable download** (`Download`). Retry and resume over a temp file and a source marker, with honest
  servers (sections 14.2, 14.4 and 15.3.7 of RFC 9110), then replacement through a backup. Every
  intermediate disk state is recorded and judged, and a download with one delivering attempt succeeds. The cached path can leave a copy beside another source's
  marker: the exact condition is stated, with a run that then installs a file of no source.
- **CSV export** (`CsvExport`). The paged writer equals the formatter, and the text reads back under
  section 2 of RFC 4180 with LF line ends.

`Common` holds shared value types.

## Model

| member | source | states |
|---|---|---|
| `XuguLocks.RankOrder` | agents/drivers/xugu/main.go:386-400 | every mutex is wanted only while all held ones have lower rank: session.mu, then connectMu or r.mu, then controlMu or activeCancelMu |
| `XuguLocks.LockInvNext` | agents/drivers/xugu/main.go:429-551 | the lock table and the program counters agree about who holds what, after every event |
| `XuguLocks.DeadlockFree` | agents/drivers/xugu/main.go:429-551 | in every reachable state that has not crashed, while some request is unfinished some thread has a step |
| `XuguRuns.NextKeeps` | agents/drivers/xugu/main.go:440-551 | every step of every thread, every new request and every outside session keeps ownership, reference counts, handles, targets and snapshots consistent |
| `XuguRuns.InvAlways` | agents/drivers/xugu/main.go:440-551 | the same over every run from the empty runtime |
| `XuguRuns.ControlConservation` | agents/drivers/xugu/main.go:440-551 | a control key's count is its registered sessions plus the openers and closers holding it; it is present with its one open connection iff that is positive; no other control connection is open; the registry holds at most 256 sessions, no session twice |
| `XuguRuns.ControlOpenWhileUsed` | agents/drivers/xugu/main.go:454-459 | a connected session's control connection is open, is the one of its key, and is counted on the session's behalf |
| `XuguRuns.ClosedByLastHolder` | agents/drivers/xugu/main.go:536-551 | a control connection is closed only by the step of its key's only holder, after which there is none |
| `XuguRuns.CancelTargetsUnique` | agents/drivers/xugu/main.go:757-808 | two connected sessions never share a connection or a cancel target, every recorded target is live, and no cancel ever sent reaches another connected session |
| `XuguLinks.KillsSafe` | agents/drivers/xugu/main.go:2012-2033 | a cancel sends one kill of the session's own target when a statement runs on it, else none, and reaches no other session |
| `XuguLinks.LinkKeeps` | agents/drivers/xugu/main.go:879-893 | recording a connection whose id lies outside the before-snapshot keeps targets unique and live |
| `XuguLinks.CutKeeps` | agents/drivers/xugu/main.go:792-808 | disconnecting keeps the invariants: nobody else relied on the connection |
| `XuguSteps.AcquireKeeps` | agents/drivers/xugu/main.go:513-534 | acquiring adds one holder and one reference, and never changes an open handle |
| `XuguSteps.ReleaseKeeps` | agents/drivers/xugu/main.go:536-551 | releasing drops one holder and one reference; what other threads connect or hold stays open |
| `XuguRegistry.RegisterKeeps` | agents/drivers/xugu/main.go:465-480 | registering hands the reference from the opener to the registry, the count unchanged |
| `XuguRegistry.TakeKeeps` | agents/drivers/xugu/main.go:498-511 | taking a session out hands its reference to the closer, the count unchanged |
| `XuguCrash.CrashesExactlyWithoutHandle` | agents/drivers/xugu/main.go:386-400 | a step crashes iff it is a reconnect that found no control handle |
| `XuguCrash.ValidationCrashesExactly` | agents/drivers/xugu/main.go:386-400 | a validation that no other thread interrupts crashes iff its session has no control handle as it takes session.mu, whatever the database answers |
| `XuguReconnect.CrashDecidedAtTake` | agents/drivers/xugu/main.go:386-400 | in every run, whatever other threads and the server do in between, a validation about to query its control connection crashes iff its session had no handle at the event in which the thread took session.mu |
| `XuguReconnect.CrashTraced` | agents/drivers/xugu/main.go:386-400 | every crash of every run goes back to such an event |
| `XuguReconnect.HeldSessionStays` | agents/drivers/xugu/main.go:792-808 | while one thread holds session.mu of a published session, no other thread's step changes its handle |
| `XuguRequests.HandlelessCrashes` | agents/drivers/xugu/main.go:386-400 | without a handle the crash comes after six steps, for every answer |
| `XuguRequests.RefusedReconnect` | agents/drivers/xugu/main.go:386-400 | with a handle and a refusing database the validation ends and leaves the session registered without one |
| `XuguRequests.OpenGoes` | agents/drivers/xugu/main.go:440-481 | an uninterrupted open that the database grants registers a connected session with a fresh control connection |
| `XuguRequests.CloseGoes` | agents/drivers/xugu/main.go:498-511 | an uninterrupted close takes, disconnects and releases, and leaves the session without a handle |
| `XuguCrash.FailedReconnectCrashes` | agents/drivers/xugu/main.go:792-808 | a run from the empty runtime: open, then two validations against a refusing database, crashes |
| `XuguCrash.RacingCloseCrashes` | agents/drivers/xugu/main.go:488-511 | a run from the empty runtime: a close between a validation's lookup and its session.mu crashes it, for every answer |
| `XuguCancel.KillsExactly` | agents/drivers/xugu/main.go:2012-2033 | every event adds exactly the kill it owes: of the session's own target, reaching nobody else, when a thread cancels or disconnects a session with a running statement, and none otherwise |
| `XuguCancel.KillsOfRun` | agents/drivers/xugu/main.go:2012-2033 | the cancels of any run are those its events owe, in order |
| `XuguCancel.CancelStep` | agents/drivers/xugu/main.go:2012-2033 | in every reachable state the step of a cancel sends that one kill if a statement runs, and changes nothing else |
| `XuguCancel.ActiveExactly` | agents/drivers/xugu/main.go:1997-2010 | a session is busy from the region that records its operation to the one that clears it, or its disconnect |
| `XuguCancel.CancelGoes` | agents/drivers/xugu/main.go:401-407 | a cancel_session on its own, other threads holding what mutexes they like but r.mu and activeCancelMu, sends the kill iff a statement runs |
| `XuguCancel.UseGoes` | agents/drivers/xugu/main.go:429-438 | a query on its own reaches its running statement with session.mu held |
| `XuguCancel.CancelInterrupts` | agents/drivers/xugu/main.go:2012-2033 | a run from the empty runtime: open, query, cancel sends one kill of the opened connection |
| `XuguConnections.NoConnectionLeaks` | agents/drivers/xugu/main.go:757-808 | in every run a connection that leaves the runtime's hands is closed by the step that lets it go |
| `XuguOutcomes.RefusedOpen` | agents/drivers/xugu/main.go:440-450 | an open under a taken id, or with 256 sessions registered, changes nothing |
| `XuguOutcomes.UnknownClose` | agents/drivers/xugu/main.go:498-505 | a close of an unknown id changes nothing |
| `XuguOutcomes.UnknownLookup` | agents/drivers/xugu/main.go:488-496 | a validation, query or cancel for an unknown id changes nothing |
| `XuguOutcomes.HealthyValidation` | agents/drivers/xugu/main.go:386-396 | a validation that finds its connection in order changes nothing |
| `XuguOutcomes.ReconnectGoes` | agents/drivers/xugu/main.go:386-400 | a granted reconnect ends with the session on the new connection, under the control connection it had |
| `XuguOutcomes.FailedOpenFresh` | agents/drivers/xugu/main.go:452-464 | an open that gets no control connection leaves registry, controls and server as they were |
| `XuguOutcomes.FailedOpenShared` | agents/drivers/xugu/main.go:452-464 | an open that fails behind a shared control connection gives its reference back |
| `XuguOutcomes.ShutdownCloses` | agents/drivers/xugu/main.go:553-567 | a shutdown empties the registry and disconnects every session that was in it |
| `SqlLexer.RunShift` | agents/drivers/oracle-go/main.go:3081-3176 | the reference lexer depends only on the characters read |
| `SqlScanners.SkipSingleQuoted` | agents/drivers/oracle-go/main.go:3260-3273 | stops at the last character of the literal the reference lexer sees |
| `SqlScanners.SkipDoubleQuoted` | agents/drivers/oracle-go/main.go:3299-3312 | the same for quoted names |
| `SqlScanners.SkipLineComment` | agents/drivers/oracle-go/main.go:3314-3322 | the same for line comments |
| `SqlScanners.SkipBlockCommentSkips` | agents/drivers/oracle-go/main.go:3324-3330 | the same for block comments, closed or not |
| `SqlScanners.SkipAlternativeQuoted` | agents/drivers/oracle-go/main.go:3275-3297 | the same for q-quotes, and refuses exactly when none opens |
| `SqlScanners.FindTopLevelKeyword` | agents/drivers/oracle-go/main.go:3119-3148 | returns the first depth-0 keyword in code, or -1 if there is none |
| `SqlScanners.SplitTopLevelList` | agents/drivers/oracle-go/main.go:3081-3117 | returns the trimmed pieces between exactly the depth-0 code commas |
| `SqlScanners.PiecesRebuild` | agents/drivers/oracle-go/main.go:3081-3117 | the untrimmed pieces with commas between them are the input |
| `SqlScanners.PiecesCount` | agents/drivers/oracle-go/main.go:3081-3117 | there is one piece more than there are depth-0 code commas |
| `SqlScanners.FindMatchingParen` | agents/drivers/oracle-go/main.go:3150-3176 | returns the first position where code depth returns to zero, or -1 |
| `SqlBinds.ExplainPlanBindParams` | agents/drivers/oracle-go/main.go:2279-2340 | reports exactly the binds in code, positional ones each time and named ones at their first occurrence |
| `SqlBinds.FirstOnlyDistinct` | agents/drivers/oracle-go/main.go:2279-2315 | no name is reported twice up to case, and every name that occurs is reported |
| `SqlBinds.BindExactly` | agents/drivers/oracle-go/main.go:2317-2340 | a bind is a single colon before a number, read as far as its digits go and positional, or before a name, read to its end |
| `SqlBinds.BindToken` | agents/drivers/oracle-go/main.go:2317-2340 | the reference lexer reads a bind as one token |
| `LikePattern.FuzzyLikePattern` | agents/drivers/oracle-go/main.go:1294-1311 | the pattern matches a name iff the trimmed filter is a subsequence of it, whatever wildcards it contains |
| `LikePattern.FuzzyMatchesSubsequence` | agents/drivers/xugu/main.go:1391-1408 | the escaped body between percent signs matches exactly the supersequences |
| `LikePattern.CompletionMatches` | agents/drivers/oracle-go/main.go:1741-1754 | the completion pattern matches iff the mask is a prefix, or a substring in contains mode |
| `LikePattern.ContainsModeIs` | agents/drivers/oracle-go/main.go:1748-1754 | the contains mode is that word in any case, blanks around it or not |
| `SqlIdentifiers.ReadIdentifierToken` | agents/drivers/oracle-go/main.go:3178-3209 | reading by position is reading the text from there on |
| `SqlIdentifiers.QuoteRoundTrip` | agents/drivers/oracle-go/main.go:3552-3554 | a printed name is read back for every name, quotes, commas and parentheses included |
| `SqlIdentifiers.ReadPrinted` | agents/drivers/oracle-go/main.go:3178-3209 | any valid token is read back with the text that follows it |
| `SqlIdentifiers.UnquoteIsName` | agents/drivers/oracle-go/main.go:3211-3217 | unquoting text agrees with the token reader |
| `SqlLists.SplitListText` | agents/drivers/oracle-go/main.go:2833-2835 | splitting a rebuilt list gives back the items it was built from |
| `SqlLists.ItemFacts` | agents/drivers/oracle-go/main.go:3081-3117 | every item cut from a list is trimmed, balanced, and holds no top-level comma or FROM |
| `XmlRewrite.RewriteSelectItems` | agents/drivers/oracle-go/main.go:2935-2967 | rewrites item by item in order and reports a change iff some item is a plain or starred XMLTYPE reference |
| `XmlRewrite.RewriteDirectSelect` | agents/drivers/oracle-go/main.go:2803-2852 | computes the direct rewrite: same branches, errors and flags |
| `XmlReparse.SelectByPosition` | agents/drivers/oracle-go/main.go:3072-3079 | without trailing blanks the select list starts right after SELECT |
| `XmlReparse.TrailingBlanksShift` | agents/drivers/oracle-go/main.go:3072-3079 | with trailing blanks the computed start is off by exactly their number |
| `XmlReparse.GluedSelectLost` | agents/drivers/oracle-go/main.go:2833-2835 | a list written directly behind SELECT that begins with a word character makes the statement unparseable |
| `XmlReparse.SelectStable` | agents/drivers/oracle-go/main.go:3072-3079 | the same head in front of other text is found again iff that text does not prolong the word SELECT |
| `XmlReparse.PartsOf` | agents/drivers/oracle-go/main.go:2803-2839 | the parsed parts put together are the statement |
| `XmlReparse.Reparse` | agents/drivers/oracle-go/main.go:2803-2839 | re-lexing a rebuilt statement finds the same head, modifier, FROM part and table, and the rebuilt list |
| `XmlItems.OriginalItemGood` | agents/drivers/oracle-go/main.go:3107-3114 | every item of a select list is a good fragment, or ends inside a line comment |
| `XmlIdempotent.GluedExactly` | agents/drivers/oracle-go/main.go:2833-2835 | the new list runs into the word before it iff no blank or symbol stands there and what replaces the first item begins with a word character |
| `XmlIdempotent.RewrittenReparses` | agents/drivers/oracle-go/main.go:2803-2839 | a rewritten statement parses again into the same parts and the rewritten items |
| `XmlIdempotent.DirectIdempotent` | agents/drivers/oracle-go/main.go:2803-2839 | rewriting a rewritten statement returns it unchanged |
| `XmlMeaning.ColumnParseAgrees` | agents/drivers/oracle-go/main.go:3013-3045 | the column-item parser accepts exactly the token shapes of a plain column with optional alias |
| `XmlMeaning.StarParseAgrees` | agents/drivers/oracle-go/main.go:2993-3011 | the star parser accepts exactly the star shapes |
| `XmlMeaning.LookupExact` | agents/drivers/oracle-go/main.go:2935-2941 | with no two names equal up to case the column map answers for exactly the XMLTYPE columns |
| `XmlMeaning.ItemsPreserved` | agents/drivers/oracle-go/main.go:2935-2991 | for every list, rewriting yields the same headings and cells in order, XMLTYPE columns serialized |
| `XmlTable.TableIs` | agents/drivers/oracle-go/main.go:2854-2906 | for any text behind FROM the parser finds exactly the schema, table and alias that its tokens name, and none exactly when they name no table, or a comma or join follows |
| `XmlTable.TouchesExactly` | agents/drivers/oracle-go/main.go:2935-2967 | an item is replaced, with an XMLTYPE column in the table, iff it is a star of the table or names an XMLTYPE column of it |
| `XmlTable.ChangesExactly` | agents/drivers/oracle-go/main.go:2803-2852 | a statement is rewritten iff some item shows an XMLTYPE column of the table its tokens name |
| `XmlTable.MeaningPreserved` | agents/drivers/oracle-go/main.go:2803-2852 | whatever the direct rewrite returns keeps head, modifier, FROM part and table, and on every row of the table its tokens name the list yields the same headings and cells with XMLTYPE serialized |
| `XmlComplete.ModifierExactly` | agents/drivers/oracle-go/main.go:2908-2921 | what is split off a list is DISTINCT, ALL or nothing with the blanks around it, iff the list's first token is that word or goes on from it with a number sign |
| `XmlComplete.RecognizedExactly` | agents/drivers/oracle-go/main.go:2803-2815 | a SELECT with a FROM at depth 0 is taken up iff the tokens behind FROM name one table |
| `XmlComplete.NotRecognized` | agents/drivers/oracle-go/main.go:2803-2810 | without SELECT or FROM a statement is not taken up |
| `XmlComplete.FailsExactly` | agents/drivers/oracle-go/main.go:2816-2825 | the rewrite fails with exactly the catalog's error, iff some item names a column or star and the catalog fails |
| `XmlComplete.QualifierExactly` | agents/drivers/oracle-go/main.go:3047-3056 | a qualifier picks the table iff it is the alias or the table name up to case and blanks |
| `XmlComplete.XmlTypeExactly` | agents/drivers/oracle-go/main.go:3067-3070 | the types are XMLTYPE and SYS.XMLTYPE in any case with blanks around them |
| `XmlShift.ShiftedHead` | agents/drivers/oracle-go/main.go:3072-3079 | whatever is found behind trailing blanks has as many characters more in its head |
| `XmlShift.ShiftedParts` | agents/drivers/oracle-go/main.go:2803-2839 | with n blanks, n at most the length of modifier and list and the cut in code outside parentheses, the list found begins n characters late, with the same FROM |
| `XmlShift.ShiftedRewrite` | agents/drivers/oracle-go/main.go:2833-2835 | a rewrite then writes the new list behind those n characters |
| `XmlShift.TrailingBlanksDestroy` | agents/drivers/oracle-go/main.go:3072-3079 | with columns XDOC (NUMBER) and DOC (XMLTYPE), SELECT XDOC FROM T is left alone, and with two blanks behind it XDOC becomes X directly followed by XMLSERIALIZE of DOC |
| `XmlShift.TrailingBlanksLoseSelect` | agents/drivers/oracle-go/main.go:3072-3079 | with more trailing blanks than modifier and list have characters the statement is not recognized and comes back as it is |
| `XmlLosses.LineCommentLosesFrom` | agents/drivers/oracle-go/main.go:3107-3114 | a list rebuilt with a line comment at its end swallows FROM: the output is not recognized any more |
| `XmlLosses.LineCommentRewriteLost` | agents/drivers/oracle-go/main.go:2833-2835 | the rewrite of any statement whose last item ends in a line comment, with a one-line FROM part, is such an output |
| `XmlLosses.PickedUpExactly` | agents/drivers/oracle-go/main.go:2935-2967 | a picked-up column keeps heading and value on every row iff the column found by upper-cased name is the one named |
| `XmlLosses.CaseTwinsConfused` | agents/drivers/oracle-go/main.go:2935-2941 | with columns doc (XMLTYPE) and DOC (NUMBER), asking for DOC serializes doc |
| `XmlNested.RewriteSelect` | agents/drivers/oracle-go/main.go:2746-2755 | computes the nested rewrite, terminating because inner texts are shorter |
| `XmlNested.RewriteNested` | agents/drivers/oracle-go/main.go:2757-2801 | the loop applies exactly the edits of the scan |
| `XmlNested.EditsDisjoint` | agents/drivers/oracle-go/main.go:2757-2801 | edits replace interiors of disjoint balanced code parentheses that start with SELECT, each by its own rewrite |
| `XmlComplete.IsSelectExactly` | agents/drivers/oracle-go/main.go:2780-2781 | an inner text is a SELECT iff that word stands behind its leading blanks and comments |
| `XmlComplete.DepthExactly` | agents/drivers/oracle-go/main.go:2746-2755 | down to depth 8 a statement the direct rewrite covers gets it, below that nothing is touched |
| `XmlComplete.EditsCover` | agents/drivers/oracle-go/main.go:2757-2801 | every outermost code parenthesis around a SELECT that its own rewrite changes is among the edits |
| `XmlComplete.NestedXmlEdited` | agents/drivers/oracle-go/main.go:2757-2801 | a nested SELECT that shows an XMLTYPE column of its table is rewritten by its direct rewrite |
| `XmlNested.NestedIdentity` | agents/drivers/oracle-go/main.go:2741-2801 | without XMLTYPE columns anywhere the rewrite is the identity at every depth |
| `Paging.QuerySession.ReadPage` | agents/drivers/oracle-go/main.go:2567-2603 | returns the longest prefix of what is left that page size and budget allow, fails iff a row looked at cannot be scanned or the end seen is an error, and keeps one row pending iff there is more |
| `Paging.ExecuteSelect` | agents/drivers/oracle-go/main.go:2634-2658 | returns the first maxRows rows, truncated iff there are more |
| `Paging.PagesAreFull` | agents/drivers/oracle-go/main.go:2567-2603 | every page but the last has more, is full, and is followed by a non-empty page |
| `Paging.FetchingFinishes` | agents/drivers/oracle-go/main.go:2447-2463 | after as many fetches as rows are due the last page has no successor |
| `Paging.PagesRebuild` | agents/drivers/oracle-go/main.go:2396-2463 | the pages together are the first min(maxRows, n) rows, and the last is truncated iff n >= maxRows |
| `Paging.FetchingFails` | agents/drivers/oracle-go/main.go:2567-2603 | fetching fails iff a row due cannot be scanned or the end comes within the budget and is an error |
| `Paging.PagingRefinesOneShot` | agents/drivers/oracle-go/main.go:2396-2463 | for every sequence of page sizes paging delivers executeSelect's rows; they disagree about success only for exactly maxRows rows followed by an error |
| `CursorTable.SessionIdInjective` | agents/drivers/oracle-go/main.go:2465-2470 | ids of either kind are equal only for the same kind and counter value |
| `CursorTable.NextIdFresh` | agents/drivers/oracle-go/main.go:2531-2536 | the next id was never handed out before |
| `CursorTable.Server.QueryWithRewrite` | agents/drivers/oracle-go/main.go:2694-2714 | at most one result set stays open and recorded, the one the caller gets |
| `CursorTable.Server.Start` | agents/drivers/oracle-go/main.go:2396-2445 | returns the first page; a session is stored under a never-used id iff there is more; every other path closes the result set and changes no table |
| `CursorTable.Server.Fetch` | agents/drivers/oracle-go/main.go:2447-2463 | returns the next page of an id, drops the session when there is no more or an error, and touches no other session |
| `CursorTable.Server.Close` | agents/drivers/oracle-go/main.go:2538-2556 | removes the session and its result set and nothing else |
| `CursorTable.Server.CloseAll` | agents/drivers/oracle-go/main.go:2558-2565 | empties all three tables |
| `CursorTable.Server.Disconnect` | agents/drivers/oracle-go/main.go:780-788 | empties all three tables whether or not closing succeeds, and resets no counter |
| `CursorTable.Server.Connect` | agents/drivers/oracle-go/main.go:763-778 | starts from empty tables and keeps the counters |
| `Conversation.PairedConcat` | crates/dbx-core/src/agent_loop.rs:289-298 | behind a paired conversation, text is paired iff it is paired by itself |
| `Conversation.CutPaired` | crates/dbx-core/src/agent_loop.rs:1101-1117 | cutting anywhere but before a tool result leaves two paired halves |
| `Conversation.PromptBudget` | crates/dbx-core/src/agent_loop.rs:858-862 | the two reserves and the budget add up to the window, so nothing saturates |
| `Conversation.KeepRecentBudget` | crates/dbx-core/src/agent_loop.rs:864-870 | the kept share never exceeds the budget, even when the 32-bit product wraps |
| `Conversation.FindCut` | crates/dbx-core/src/agent_loop.rs:900-916 | the cut is the first position from which everything fits the keep budget, never past the last message |
| `Conversation.FindOrigin` | crates/dbx-core/src/agent_loop.rs:1119-1138 | the nearest earlier assistant that could have asked, or none exists |
| `Conversation.OriginIsExchange` | crates/dbx-core/src/agent_loop.rs:1119-1138 | in a paired conversation that assistant is the one that did ask |
| `Conversation.AdjustCut` | crates/dbx-core/src/agent_loop.rs:1101-1117 | in a paired conversation the cut moves to the start of its exchange |
| `Conversation.MaybeCompact` | crates/dbx-core/src/agent_loop.rs:878-972 | keeps the first message and everything from the cut on; a paired conversation stays paired iff its first message makes no tool calls; a conversation within budget or of two messages is left alone, and a longer paired one over budget is skipped only when the cut falls at its start |
| `AgentLoop.StreamTurn` | crates/dbx-core/src/agent_loop.rs:185-270 | one or two requests per turn, the second only after a context-length error with nothing emitted and a compaction that helped; the error behind the loop is never reached |
| `AgentLoop.ExecuteTools` | crates/dbx-core/src/agent_loop.rs:345-390 | each call runs exactly once, parallel ones first, groups in call order, and each gets its own result |
| `AgentLoop.UseTools` | crates/dbx-core/src/agent_loop.rs:335-409 | all starts then all ends in call order; results enter the conversation in call order, which stays paired |
| `AgentLoop.Judge` | crates/dbx-core/src/agent_loop.rs:300-327 | an answer is accepted, sent back while repairs are left, or given up on with a note |
| `AgentLoop.FinishTurn` | crates/dbx-core/src/agent_loop.rs:284-409 | goes on with the assistant message and the calls' results, or with it and the repair prompt; ends with the text or a note on it |
| `AgentLoop.OneTurn` | crates/dbx-core/src/agent_loop.rs:158-410 | a turn never fails, follows the protocol and keeps requests paired; its requests, log, outcome and the conversation it leaves are those its stream, calls and results determine, compacted only when over budget or after a context error |
| `AgentLoop.RunAgentLoop` | crates/dbx-core/src/agent_loop.rs:158-450 | every run is Ok, follows the protocol to one final AgentEnd, and unfolds turn by turn: each takes up exactly what the one before left, the last decides text and exit, the log is theirs; requests are paired from a conversation whose first message makes no calls |
| `AgentLoop.NothingForgotten` | crates/dbx-core/src/agent_loop.rs:158-410 | without compaction every request is the given conversation and everything said and answered since, in order |
| `AgentLoop.FinalAnswer` | crates/dbx-core/src/agent_loop.rs:300-327 | a completed run returns the text of its last attempt, which made no calls, or a note on it once two repairs are spent |
| `AgentLoop.TextIsShown` | crates/dbx-core/src/agent_loop.rs:31-44 | the text kept of a stream is the text it has shown |
| `AgentLoop.EmittedExactly` | crates/dbx-core/src/agent_loop.rs:203-216 | a stream counts as having emitted something iff it shows something |
| `AgentLoop.ParallelFirst` | crates/dbx-core/src/agent_loop.rs:345-390 | parallel calls run before the others, each group in call order, each call with its own result |
| `AgentLoop.FailureNoteKeeps` | crates/dbx-core/src/agent_loop.rs:571-577 | a failure note keeps the answer and ends with the reason |
| `AgentLoop.TurnsNumbered` | crates/dbx-core/src/agent_loop.rs:158-184 | a log that follows the protocol numbers its turns 0, 1, 2, ... and has at most 30 |
| `AgentLoop.CallsAnswered` | crates/dbx-core/src/agent_loop.rs:335-409 | in an ended run the finished tool calls are the started ones in the same order |
| `AgentLoop.EndsOnce` | crates/dbx-core/src/agent_loop.rs:412-450 | an ended run has one AgentEnd, its last entry |
| `AgentLoop.RunTextOnly` | crates/dbx-core/src/agent_loop.rs:677-744 | an error is the provider's own, with nothing shown; otherwise one AgentEnd; at most three requests, each the one before with the answer and the repair prompt; the result is what the last completion makes of it |
| `StreamFraming.DrainLine` | crates/dbx-core/src/ai.rs:379-388 | takes the first finished line out of the buffer, or leaves it alone if there is none |
| `StreamFraming.LinesConcat` | crates/dbx-core/src/ai.rs:379-388 | more bytes only add lines behind the finished ones |
| `StreamFraming.LinesRebuild` | crates/dbx-core/src/ai.rs:379-388 | the lines with their line feeds and the unfinished rest are the bytes, and no line feed stays inside |
| `StreamFraming.PayloadExactly` | crates/dbx-core/src/ai.rs:365-377 | a data line carries its value with or without a space behind the colon, a bare object line itself, any other line nothing |
| `StreamFraming.FoldExactly` | crates/dbx-core/src/ai.rs:2013-2083 | up to a line that stops it, reading applies the step to every payload once and in order; nothing behind such a line is read |
| `StreamFraming.CarriageReturnIgnored` | crates/dbx-core/src/ai.rs:365-377 | a carriage return before the line feed changes no payload |
| `StreamFraming.ReadStream` | crates/dbx-core/src/ai.rs:2013-2083 | reading the chunks as they come gives the state and stopping point of the concatenated bytes: the lines in order up to the stop mark or undecodable text |
| `StreamFraming.ChunkingIrrelevant` | crates/dbx-core/src/ai.rs:1828-1846 | two partitions of the same bytes give the reading loop the same state and stopping point |
| `StreamedCalls.ReadToolCalls` | crates/dbx-core/src/ai.rs:2366-2422 | reading a stream through the accumulator yields the calls and shown text that its bytes determine, or fails on undecodable text |
| `StreamedCalls.BytesDetermineCalls` | crates/dbx-core/src/ai.rs:2366-2422 | however the same bytes are cut, the same calls result |
| `ToolCallStream.StartOrderFacts` | crates/dbx-core/src/ai.rs:1699-1732 | the call order holds each started index once |
| `ToolCallStream.Accumulator.Process` | crates/dbx-core/src/ai.rs:1699-1732 | after any events: first-start order, last non-empty id and name, fragments received after the start |
| `ToolCallStream.CallSnoc` | crates/dbx-core/src/ai.rs:1699-1732 | what one more event does to one index, against the meaning of the whole history |
| `ToolCallStream.Accumulator.Finalize` | crates/dbx-core/src/ai.rs:1734-1748 | one call per started index, in that order |
| `ToolCallStream.ResponsesReader.ToolIndex` | crates/dbx-core/src/ai.rs:644-662 | the index is the one remembered for the item, or the one stated, or the next free one, and an item keeps it |
| `ToolCallStream.ResponsesReader.EmitItem` | crates/dbx-core/src/ai.rs:664-692 | adds exactly the announcement of an index not yet started and the whole arguments of one without any |
| `ToolCallStream.ResponsesReader.Handle` | crates/dbx-core/src/ai.rs:2158-2201 | what each event adds; over any events each index starts at most once, gets whole arguments at most once, and never behind a delta |
| `ToolCallStream.Accumulate` | crates/dbx-core/src/ai.rs:2366-2422 | all events through the accumulator give the calls and texts of the whole history |
| `ToolCallStream.EmitKeeps` | crates/dbx-core/src/ai.rs:664-692 | the rules an emission must follow are enough to keep those facts |
| `ResponsesCalls.FragmentsSplit` | crates/dbx-core/src/ai.rs:1699-1732 | what was sent for an index is what came before its announcement, which is dropped, and the arguments the call gets |
| `ResponsesCalls.ItemArguments` | crates/dbx-core/src/ai.rs:664-692 | behind an item its call has the arguments streamed so far, or the item's own if there was no delta |
| `ResponsesCalls.ItemKeepsArguments` | crates/dbx-core/src/ai.rs:664-692 | a finished item whose deltas, if any, add up to its arguments gives its call these arguments iff nothing was sent before its announcement |
| `ResponsesCalls.ReadItems` | crates/dbx-core/src/ai.rs:2158-2201 | any stream through reader and accumulator: the calls of the emitted events, each with all that was sent for it iff none of it came early |
| `ResponsesCalls.EarlyDeltaLosesArguments` | crates/dbx-core/src/ai.rs:2158-2201 | a delta before its item leaves the call with empty arguments though both carried them |
| `ProviderMessages.GroupingLossless` | crates/dbx-core/src/ai.rs:1760-1799 | flattening the grouped messages gives back the conversation's blocks in order |
| `ProviderMessages.PairedGrouped` | crates/dbx-core/src/ai.rs:1760-1799 | in a converted paired conversation every message with calls is followed by one user message with their answers in call order, and answers stand nowhere else |
| `ProviderForms.ClaudeReadBack` | crates/dbx-core/src/ai.rs:1760-1799 | reading role, text, calls and answers off the blocks gives back every message, an absent call id as an empty one |
| `ProviderForms.PairedRecovered` | crates/dbx-core/src/ai.rs:1760-1799 | of a paired conversation with ids on tool results only, nothing is unrecoverable |
| `ProviderForms.ToClaude` | crates/dbx-core/src/ai.rs:1760-1799 | an independent reader gives back every conversation's messages, a paired one's whole; tool_result ids match tool_use ids for every paired one |
| `ProviderForms.GeminiNameRoundTrip` | crates/dbx-core/src/ai.rs:2332-2347 | the function name is read back from the call id for every name, hyphens included |
| `ProviderForms.GeminiNameExactly` | crates/dbx-core/src/ai.rs:2232-2235 | a response is sent under what stands between the prefix and the last hyphen of its id, or as unknown |
| `ProviderForms.GeminiReadBack` | crates/dbx-core/src/ai.rs:2225-2270 | reading the parts gives back who spoke, text, call names and arguments, and answers under their names; ids and the roles Gemini lacks are not recoverable |
| `ProviderForms.ToGemini` | crates/dbx-core/src/ai.rs:2225-2270 | an independent reader gives back all that Gemini is told of every conversation; functionResponse names match the calls' names for every paired one with ids of the scheme |
| `Download.OpenResponse` | crates/dbx-core/src/agent_service.rs:926-978 | returns the first candidate that may be asked and is usable, at the declared size; while resuming only the source of the bytes at hand |
| `Download.Choose` | crates/dbx-core/src/agent_service.rs:926-978 | the choice is a usable, permitted candidate with its own response, and there is none iff no permitted candidate is usable |
| `Download.Store.Transfer` | crates/dbx-core/src/agent_service.rs:868-885 | chunks are appended; while they continue the marked source every state between them is a prefix of it |
| `Download.BodyFits` | crates/dbx-core/src/agent_service.rs:853-865 | an honest response continues the bytes at hand, and a finished one completes the source |
| `Download.Store.TryOnce` | crates/dbx-core/src/agent_service.rs:820-905 | what one attempt makes of any disk; done with the whole content when the first source with an offer serves it or the source of the part at hand serves the rest; a part nobody goes on with is dropped; honest answers keep a resumable disk resumable |
| `Download.DeliveryCompletes` | crates/dbx-core/src/agent_service.rs:820-905 | an attempt that delivers completes every disk that is resumable from the candidates |
| `Download.RoundResumable` | crates/dbx-core/src/agent_service.rs:820-905 | an honest attempt without a local error never aborts and leaves such a disk |
| `Download.Store.Fetch` | crates/dbx-core/src/agent_service.rs:817-912 | at most four attempts, destination untouched; success means the declared number of bytes of one source, or all of it; it succeeds when one of the four delivers behind honest ones without local errors |
| `Download.Store.Replace` | crates/dbx-core/src/agent_service.rs:1187-1207 | succeeds iff the move works and an old file can be backed up; after every step the old file is at the destination or in the backup, or the new one is in place; on failure the old one is kept |
| `Download.Store.Install` | crates/dbx-core/src/agent_service.rs:781-924 | from a resumable disk success installs the declared bytes of one source and failure keeps the old file, every step safe; it succeeds, over an existing file or not, when one of the four attempts delivers and the moves work |
| `Download.Store.InstallCached` | crates/dbx-core/src/agent_service.rs:805-813 | a cached copy is installed iff it is copied and the moves work; what a failure leaves, a whole or cut-short copy, is safe to resume from whatever the sources hold iff it is empty or there was no marker |
| `Download.OverwriteKeeps` | crates/dbx-core/src/agent_service.rs:805-806 | writing over a marked temp file keeps resume safety, for every content it held for, iff nothing is written, there is no marker, or the new bytes begin the old ones |
| `Download.LeftoverCompletes` | crates/dbx-core/src/agent_service.rs:820-905 | from any shorter leftover with a marker a finished honest partial response completes the attempt with leftover plus rest, which are bytes of the source iff the leftover was resumable |
| `Download.StaleMarkerMixes` | crates/dbx-core/src/agent_service.rs:781-924 | interrupted download, cached copy that cannot be moved, resumed download: every answer is honest and the installed file is from no source |
| `Download.ReplayStaleMarker` | crates/dbx-core/src/agent_service.rs:781-924 | the same run through the attempt, cached and network paths |
| `CsvExport.WriteRow` | crates/dbx-core/src/csv_export.rs:97-119 | writes the row's line |
| `CsvExport.AppendedIs` | crates/dbx-core/src/csv_export.rs:183-186 | lines opened by line feeds are the joined lines behind one |
| `CsvExport.ExportTable` | crates/dbx-core/src/csv_export.rs:131-199 | for every table and page size the file is the byte order mark and format_csv, and the count is the number of rows |
| `CsvExport.QuotedInverse` | crates/dbx-core/src/csv_export.rs:30-32 | reading an escaped value gives it back |
| `CsvExport.RecordsInverse` | crates/dbx-core/src/csv_export.rs:72-87 | the lines of any non-empty rows read back as their fields, NULL apart from the empty string |
| `CsvExport.CsvRoundTrip` | crates/dbx-core/src/csv_export.rs:79-91 | a rectangular table comes back iff it has at least two columns or at least one row |
| `CsvExport.EmptyLooksLikeNull` | crates/dbx-core/src/csv_export.rs:79-91 | with at most one column no row and one row of NULL have the same text |

## Left out

- Networks, databases, HTTP and JSON libraries, clocks and file systems are parameters or choices of the environment; what is assumed of them is named below.
- XuguRuns.CancelTargetsUnique: takes each session to have one live server connection, the id pair to be read in one step, a new connection to get an id that is not live, and the server not to drop connections and targets in use. Reading a cancel's target and the server acting on it are one step too; in the driver a disconnect could fall in between, and a server that gives the freed id out again could then end another session's transaction.
- XuguLocks.DeadlockFree: covers mutexes, with database calls taken as returning; connection-pool waits are not covered (the pool has one connection and one request issues a second query while its first result set is open). Read locks are taken as exclusive, and the short regions around a session's cancel function are single steps.
- Xugu connection parameters, query execution, metadata and paging; the paging sessions there are those of the Oracle driver.
- The Oracle runtime's own registry reserves an id before connecting, so a racing close can leave a connected server that is not registered; no claim is made about it.
- XmlTable.MeaningPreserved: covers one table reference and is stated under conditions a caller can check on the statement and the catalog: no trailing blank, only SQL blanks after SELECT, a blank or symbol between SELECT or its modifier and the list or a first item that is not replaced by a word, no item ending in a line comment, no alias that is the word FROM, a table alias that does not read as a modifier, references that match names exactly, no two column names equal up to case, and no empty last item. TrailingBlanksLoseSelect and TrailingBlanksDestroy, GluedSelectLost, LineCommentRewriteLost and PickedUpExactly show what is lost without four of them (the text between parentheses is parsed as it stands, so blanks before the closing one count as trailing); the conditions on the words FROM, DISTINCT and ALL as aliases and on an empty last item are not shown to be necessary.
- XmlIdempotent.DirectIdempotent: stated under the same conditions on the text.
- Case folding in the SQL engine is ASCII; the driver folds by Unicode. Positions count characters, so an offset the driver advances by a fixed number of bytes across a non-ASCII blank is not followed. Joins, set operations and q-quotes are not treated by the rewrite and not by its meaning.
- Paging.QuerySession.ReadPage: does not model column metadata, types or timing.
- CursorTable.Server.Start: does not model 64-bit wrap-around of the id counters or the cancel functions kept beside open result sets.
- Conversation.MaybeCompact: takes message sizes and the prompt estimate as arbitrary functions in place of the floating-point estimator, and adds them without 32-bit overflow; the summary text is the environment's.
- AgentLoop.RunAgentLoop: takes the contract check, repair prompt, result shortening and error classification as arbitrary functions; token usage and the command-line provider are not modelled. From an empty conversation the first turn's own assistant message comes first, and the pairing claim is not made.
- StreamFraming.ReadStream: takes text decoding and the handling of a payload as arbitrary functions; cancellation and transport errors while waiting for a chunk are not modelled.
- ToolCallStream.Accumulator.Finalize: takes argument parsing as an arbitrary function. The model marks argument events that carry a whole item; the program does not.
- Building requests for OpenAI-compatible and Responses endpoints, endpoint strings, headers and token usage.
- Download.Store.Install: takes each file operation as one step, a source's content as fixed, and answers as honest; which copies the cache holds and how they age is not modelled. A temp file that already has the declared size is accepted on its marker alone, so the bytes are the first N of that source.
- CsvExport.ExportTable: takes the table as unchanged between pages and writing as succeeding.
- TSV export, values other than NULL and text, window and menu code, agent catalog, history and installation state: single-branch logic or plumbing.
