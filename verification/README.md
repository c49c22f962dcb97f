# Verified models of Paperboat's hard cores

Seven independent parts of Paperboat, each modelled in Dafny in the form its
source has and proved against a specification said without its own body:

- **Server rollout** (`RolloutWorld.dfy`, `RolloutOps.dfy`): the journaled switch
  of the managed API server. The machine is a value (files, journal, loaded
  route, containers, sockets); the program is a class whose every step may
  raise, with or without effect, or kill the process, leave a rewritten file
  torn, and let time pass. A ghost trace records every state the machine goes
  through, and one invariant holds in all of them, over any number of
  invocations. A ghost count of the commands that failed says when an invocation
  must succeed.
- **Policy text tools** (`PolicyText.dfy`, `PolicyTokens.dfy`, `PolicyComments.dfy`,
  `LineDiff.dfy`): the one-pass HuJSON rewriter against a lexer, the comment
  test, and the table-driven line diff with its optimality.
- **Monotone curve** (`SmoothPath.dfy`): tangents limited in place, and what that
  means for the drawn Bezier pieces (the curve itself is de Casteljau's
  construction over the reals).
- **Multipart grants** (`AuthBatch.dfy`, `AuthAdmit.dfy`): the writer and the
  reader of a framed batch, byte for byte.
- **Cursor cache** (`CursorPages.dfy`): interleaved calls sharing cursor lists.
- **Marker search** (`MarkerStream.dfy`): chunked reads with a trimmed buffer
  against a search of the whole stream.
- **Search text, recent list, test log** (`MachineFilter.dfy`,
  `RecentMachines.dfy`, `TestLog.dfy`): lens laws, a truncated list, and a
  conservation law.

`Wrappers.dfy` holds what the modules share. `dafny verify dfyconfig.toml` checks all of it.

Where the program does less than one would like, the exact condition is proved:

- `standardize` keeps the token sequence minus trailing commas if and only if no
  comment hides a trailing comma and no block comment alone separates two bare
  words; it is idempotent if and only if the first pass leaves no comma before a
  closing bracket (`CommentGlues` and `HiddenCommaSurvives` are failures).
- `hasComments` also answers yes for some comment-free texts: exactly those with
  a string literal that holds a comma, optional white space and a closing
  bracket (`CommentFreeAndYes`).
- `lineDiff` spells both texts always; it keeps the most lines while no length
  can outgrow the table's 32-bit cells.
- A credential part that passes `grantParts` may still be too long for the first
  frame once a header is put before it (`GrantPartsSendable`, with
  `FullPartHasNoRoom` a failure).
- A marker that does not leave room for a chunk within the 8 MiB limit can be
  missed altogether (`LongMarkerIsLost`); every shorter one is found.
- Setting a filter to a value outside its key's options is not read back
  (`SetChanges`), and such a token is not always overwritten (`SetOverwrites`)
  and does not always commute with another (`SetsCommute`); `ValueStays` and
  `OrderShows` are the failures, `OddValues` an instance.
- The cursor cache returns what walking from the start returns for every whole
  page from one up, as long as nobody asks for page zero (which the readers of
  the page URL turn into one): that stores a cursor in the wrong place
  (`PageZeroSpoils`). A page number below one, or between two known pages, is
  answered with a single request beside the list (`FractionMisses`).

## Model

| member | source | states |
|---|---|---|
| `RolloutWorld.ConnectionCountDecidesBusy` | deploy/rollout-server.py:26-31 | the count over a container's two tables is zero if and only if it holds no accepted connection; that is, if every socket on a port some socket listens on is itself listening (0A), waiting out its end (06) or closed (07) |
| `RolloutWorld.StaggeredCount` | deploy/rollout-server.py:84-94 | the two tables are read at different times; for a container the route does not name, a zero count still means it holds nothing when the second is read |
| `RolloutWorld.DriftKeepsQuiet` | deploy/rollout-server.py:84-94 | an unrouted container without connections stays so while time passes |
| `RolloutWorld.OnlyActiveRouted` | deploy/rollout-server.py:82-99 | with no journal, no managed container but the active one is routed to; other hosts are left alone |
| `RolloutWorld.RerouteLeads` | deploy/rollout-server.py:190-192 | after the rewrite every managed upstream (the Compose alias, the first container or a candidate) leads to the candidate |
| `RolloutWorld.RerouteKeepsText` | deploy/rollout-server.py:190-192 | place by place: the upstreams of the alias and of the active container become the candidate's, and nothing else changes |
| `RolloutWorld.SetImageNames` | deploy/rollout-server.py:195-196 | after the rewrite every image setting names the deployed image |
| `RolloutWorld.SetImageKeepsText` | deploy/rollout-server.py:195-196 | place by place: image settings name the deployed image, and nothing else changes |
| `RolloutWorld.RerouteCounts` | deploy/rollout-server.py:190-194 | the number of replaced upstreams is the number of places that have one |
| `RolloutWorld.SetImageCounts` | deploy/rollout-server.py:195-198 | and so for image settings |
| `RolloutWorld.GoodRunAt` | deploy/rollout-server.py:228-248 | in a good run every state satisfies the invariant and every step is atomic, forgets no tracked container that is still there, and spares containers in use |
| `RolloutWorld.GoodRunMore` | deploy/rollout-server.py:41-52 | a step that keeps the invariant, is atomic, forgets nothing and spares what is in use extends a good run |
| `RolloutWorld.AtMostThreeTracked` | deploy/rollout-server.py:154-206 | the retired list has at most two names, distinct and not the active one; a journal's record at most one; at most three containers are tracked |
| `RolloutWorld.RouteIsUp` | deploy/rollout-server.py:141-156 | whatever is interrupted, the managed upstreams of the loaded route name running containers only |
| `RolloutWorld.NeverMixed` | deploy/rollout-server.py:141-211 | over any run, a state without a journal has route, Caddyfile, image setting and active name all from the start of the run or all from one committed switch; a journal's own record has such an origin too |
| `RolloutWorld.NeverForgotten` | deploy/rollout-server.py:141-211 | over any run, a container that was tracked once is tracked as long as it is there |
| `RolloutOps.ValidImageIsOneWord` | deploy/rollout-server.py:159-160 | a reference is accepted if and only if it is one word of at most 512 characters from a list that holds no space, quote, equals sign or shell character, and starts with no punctuation |
| `RolloutOps.CandidateAfterDigest` | deploy/rollout-server.py:170 | a candidate is named after the first 16 characters of the image's digest |
| `RolloutOps.RecoveryIsRestartable` | deploy/rollout-server.py:141-156 | any number of broken-off recoveries does not change what a finished one leads to |
| `RolloutOps.UndoneSettles` | deploy/rollout-server.py:151-156 | with everything restored, dropping the journal keeps the invariant and is the undone half of an atomic switch |
| `RolloutOps.SwitchedSettles` | deploy/rollout-server.py:203-208 | with everything switched, dropping the journal keeps the invariant and is the committed half |
| `RolloutOps.RewrittenKeepsInv` | deploy/rollout-server.py:151-205 | with a journal, the two files may hold anything and the route one of two texts |
| `RolloutOps.RecordedKeepsInv` | deploy/rollout-server.py:98-207 | the records a reap, a switch and a recovery save keep the invariant |
| `RolloutOps.DisposedKeepsInv` | deploy/rollout-server.py:94-214 | stopping or removing a container other than the active one keeps the invariant and the configuration |
| `RolloutOps.DisposedSpares` | deploy/rollout-server.py:94-214 | and spares every container in use, when the container is not |
| `RolloutOps.StartedKeepsInv` | deploy/rollout-server.py:178-180 | starting a fresh container disturbs nothing, and the container is not in use |
| `RolloutOps.ReapedMore` | deploy/rollout-server.py:83-96 | one more retired name handled: kept names run, the others are gone, the rest is untouched |
| `RolloutOps.Rollout.constructor` | deploy/rollout-server.py:34-39 | a machine as Compose bootstraps it starts a good run |
| `RolloutOps.Rollout.Become` | deploy/rollout-server.py:41-52 | a step that keeps the invariant, is atomic and spares what is in use extends the run |
| `RolloutOps.Rollout.Pause` | deploy/rollout-server.py:84-86 | time passes: connections change, new ones only on the loaded route |
| `RolloutOps.Rollout.Inspect` | deploy/rollout-server.py:87 | an answer describes the container as it is now |
| `RolloutOps.Rollout.Cat` | deploy/rollout-server.py:89-90 | an answer is the running container's table at that moment |
| `RolloutOps.Rollout.Ready` | deploy/rollout-server.py:68-76 | never raises; yes only for a running container |
| `RolloutOps.Rollout.WriteCaddy` | deploy/rollout-server.py:151-203 | rewritten in place: whole on success, anything on failure, nothing else changed |
| `RolloutOps.Rollout.WriteEnv` | deploy/rollout-server.py:153-205 | the same for the image setting |
| `RolloutOps.Rollout.Reload` | deploy/rollout-server.py:78-80 | success loads the Caddyfile; a failure may have loaded it |
| `RolloutOps.Rollout.Rewrite` | deploy/rollout-server.py:151-205 | a step of a switch in flight changes a file or the route and nothing else |
| `RolloutOps.Rollout.SaveState` | deploy/rollout-server.py:54-57 | the state file is the old or the new record, the new one on success, the old one on an error |
| `RolloutOps.Rollout.SaveJournal` | deploy/rollout-server.py:199-200 | the same for the journal |
| `RolloutOps.Rollout.UnlinkJournal` | deploy/rollout-server.py:156-208 | the commit point: the journal is there or not, and the switch is whole either way |
| `RolloutOps.Rollout.DockerRun` | deploy/rollout-server.py:179-180 | at most the candidate is added, with the image asked for, and it is not in use |
| `RolloutOps.Rollout.DockerStop` | deploy/rollout-server.py:94 | allowed only for a container seen not in use; sockets may change before the stop takes effect and it is still not in use then; touches no other; success means it is stopped |
| `RolloutOps.Rollout.DockerRemove` | deploy/rollout-server.py:96-214 | the same; success means it is gone |
| `RolloutOps.Rollout.Current` | deploy/rollout-server.py:59-66 | the recorded servers, or the Compose service with nothing retired |
| `RolloutOps.CountShowsBusy` | deploy/rollout-server.py:89-91 | a count above zero means the two tables, as read, showed an accepted connection |
| `RolloutOps.Rollout.HoldsConnections` | deploy/rollout-server.py:89-91 | a no means the unrouted container holds none now; a yes means its tables showed one |
| `RolloutOps.Rollout.Dispose` | deploy/rollout-server.py:94-96 | stops and removes a container that is not in use, and touches no other; a failed log copy does not matter |
| `RolloutOps.Rollout.Retire` | deploy/rollout-server.py:84-96 | kept means unchanged, running and seen holding a connection; not kept means removed; no other container is touched |
| `RolloutOps.Rollout.RetireNext` | deploy/rollout-server.py:84-96 | one turn of the loop over the retired names |
| `RolloutOps.Rollout.RetireAll` | deploy/rollout-server.py:83-96 | of the retired names exactly the kept ones are still there, and each was seen holding a connection |
| `RolloutOps.Rollout.Reap` | deploy/rollout-server.py:82-99 | with any outcome the configuration and the active container are as before; on success every retired name still recorded runs and was seen holding a connection since, every other one is gone, and the count returned is theirs; an error leaves the record as it was; without a failing command it succeeds if and only if the retired containers exist |
| `RolloutOps.Rollout.Restore` | deploy/rollout-server.py:151-153 | puts the journaled texts back, or breaks off with only the rewritten places changed |
| `RolloutOps.Rollout.Recover` | deploy/rollout-server.py:141-156 | with a journal, ends in the undone machine (the journaled texts, the old active server, and the candidate as one more retired server) or breaks off with only the four rewritten places changed, and changes something only after the previous server answered; without one, does nothing; without a failing command it succeeds |
| `RolloutOps.Rollout.RecoverAgain` | deploy/rollout-server.py:141-156 | recovery started any number of times ends where one undisturbed recovery ends |
| `RolloutOps.Rollout.Move` | deploy/rollout-server.py:203-208 | success commits the whole switch; with any outcome the journal is still there or the switch is whole; an error leaves the journal |
| `RolloutOps.Rollout.Start` | deploy/rollout-server.py:178-187 | success means the candidate runs the image and answered; until then it is not in use |
| `RolloutOps.Rollout.Switch` | deploy/rollout-server.py:178-208 | routing is journaled only after the candidate answered; with any outcome the machine stands for its old configuration or for the whole new one; an error leaves the old one, and before the journal a candidate that can be removed |
| `RolloutOps.Rollout.Choose` | deploy/rollout-server.py:166-177 | changes nothing; names no candidate if and only if the active container already runs the image; the candidate's name comes from the image id and is free |
| `RolloutOps.Rollout.Deploy` | deploy/rollout-server.py:158-225 | a bad reference changes nothing; with any outcome, rolled back or not, the machine stands for the configuration it had or for the whole switch to the candidate named after the image id; a replacement leaves the old server among the retired, and those reaped as by Finish; without a failing command it is refused only for a bad reference, a retired container that does not exist, two servers in use, a taken name or texts it cannot rewrite |
| `RolloutOps.Rollout.Finish` | deploy/rollout-server.py:216-225 | after the commit no failure takes the new server away: with any outcome the configuration stays, and the active container runs unchanged; on success every server still recorded as retired runs and was seen holding a connection since the commit, every other one is gone, and the count returned is theirs |
| `RolloutOps.Rollout.Replace` | deploy/rollout-server.py:178-225 | the candidate takes over and the retired servers are reaped, or what the machine stands for is as before; without a failing command it is refused only if the two texts do not have two managed upstreams and one image setting |
| `RolloutOps.Rollout.CleanUp` | deploy/rollout-server.py:209-215 | keeps what the machine stands for; success leaves the undone machine or, without a journal, no candidate, and only the candidate can have gone |
| `RolloutOps.Rollout.ReapAll` | deploy/rollout-server.py:242-244 | keeps what the machine stands for; success leaves no journal, and of the servers retired after recovery exactly those that run and were seen holding a connection; without a failing command it succeeds if and only if they all exist |
| `RolloutOps.Rollout.Operate` | deploy/rollout-server.py:228-248 | for any sequence of invocations, in every state ever reached: no outage, at most two retired names, distinct and not the active one, at most three tracked containers, none forgotten while it is there, unmixed configuration without a journal; in every step: atomic, and no container in use is stopped or removed |
| `PolicyText.RenderLex` | console/lib/policy.ts:348-367 | the reference lexer loses nothing |
| `PolicyText.StringEnds` | console/lib/policy.ts:352-355 | a literal ends at the first quote with an even number of backslashes before it |
| `PolicyText.LineEnds` | console/lib/policy.ts:356-358 | a line comment ends at the first line end |
| `PolicyText.BlockEnds` | console/lib/policy.ts:359-361 | a block comment ends at the first star and slash after its opening |
| `PolicyText.LexCuts` | console/lib/policy.ts:348-367 | the lexer's pieces are a cut of the text: literals, comments and single characters that start neither, each ending where it must, only the last possibly unclosed |
| `PolicyText.LexRender` | console/lib/policy.ts:348-367 | a text has no other cut than the one the lexer finds |
| `PolicyText.ClosesTextIsCloses` | console/lib/policy.ts:362 | the look-ahead on raw text decides what the next pieces are |
| `PolicyText.CommaIsDropped` | console/lib/policy.ts:362-363 | the pass skips a comma of the text exactly when its piece is to be dropped |
| `PolicyText.CleanIsCut` | console/lib/policy.ts:348-367 | removing comments and commas creates no quote or comment mark |
| `PolicyText.LexStandard` | console/lib/policy.ts:348-367 | reading the output finds exactly the cleaned pieces of the input |
| `PolicyText.StandardKeepsStrings` | console/lib/policy.ts:348-367 | for every text the output has the same string literals, verbatim and in order, and no comment |
| `PolicyText.StandardByPlace` | console/lib/policy.ts:348-367 | however a text is cut, its standard form is what becomes of each piece: literals stay, line comments are line ends, block comments go, and so do commas with only white space before a closing bracket |
| `PolicyText.IndexOfEndIsBlockLength` | console/lib/policy.ts:360-361 | the search for the end of a block comment agrees with the lexer |
| `PolicyText.SkipString` | console/lib/policy.ts:352-355 | the index stops at the first quote with an even number of backslashes before it, or past the text when there is none |
| `PolicyText.SkipLine` | console/lib/policy.ts:356-358 | the index stops at the first line end, or at the end of the text |
| `PolicyText.Turn` | console/lib/policy.ts:350-365 | one turn consumes one piece and emits what the reference emits for it |
| `PolicyText.Standardize` | console/lib/policy.ts:348-367 | for the only cut of the text into pieces, the output of the one-pass loop is what becomes of each piece |
| `PolicyTokens.TokensOfClean` | console/lib/policy.ts:348-367 | under the two conditions cleaning drops exactly the trailing commas from the tokens |
| `PolicyTokens.CountWords` | console/lib/policy.ts:359-361 | a block comment between two bare characters costs a word |
| `PolicyTokens.CountCommas` | console/lib/policy.ts:362-363 | a hidden trailing comma survives |
| `PolicyTokens.StandardKeepsTokens` | console/lib/policy.ts:348-367 | tokens of the output are the input's without trailing commas if and only if neither of those occurs |
| `PolicyTokens.CommentGlues` | console/lib/policy.ts:359-361 | a text whose two words a dropped comment glues into one |
| `PolicyTokens.StandardIsIdentity` | console/lib/policy.ts:348-367 | the output is the input if and only if it has no comment and no trailing comma |
| `PolicyTokens.LeftoverIsDropped` | console/lib/policy.ts:362-363 | a second pass finds a comma to drop if and only if the first left one before a closing bracket |
| `PolicyTokens.StandardIsIdempotent` | console/lib/policy.ts:348-367 | a second pass changes nothing if and only if the first left no such comma |
| `PolicyTokens.HiddenCommaSurvives` | console/lib/policy.ts:362-363 | a text on which a second pass changes the output of the first |
| `PolicyComments.StripIsStripped` | console/lib/policy.ts:373-375 | replacing non-overlapping matches removes every comma before optional space and a bracket |
| `PolicyComments.CommaBracketWhere` | console/lib/policy.ts:369-376 | what the regular expression looks for: a comma and a closing bracket with white space only between them |
| `PolicyComments.CommentCostsSlashes` | console/lib/policy.ts:348-371 | removing a comment removes a slash |
| `PolicyComments.WithoutComments` | console/lib/policy.ts:369-375 | on comment-free text the two rewrites agree unless a string literal misleads the plain one |
| `PolicyComments.HasCommentsDecides` | console/lib/policy.ts:369-371 | the two squeezed rewrites differ if and only if there is a comment or a misleading literal |
| `PolicyComments.HasComments` | console/lib/policy.ts:369-371 | answers yes if and only if there is a comment or a misleading literal |
| `PolicyComments.CommentFreeAndYes` | console/lib/policy.ts:369-371 | a comment-free text with a misleading literal, on which the two rewrites differ and the answer is yes |
| `LineDiff.JoinSplit` | console/lib/policy.ts:439-440 | splitting into lines loses nothing |
| `LineDiff.LinesAreSplit` | console/lib/policy.ts:439-440 | the lines of a text are the only list of texts without line ends that joins to it |
| `LineDiff.LongestIsMaximal` | console/lib/policy.ts:441-444 | no common subsequence is longer than the length the recurrence gives |
| `LineDiff.KeptIsSubsequence` | console/lib/policy.ts:445-456 | the kept lines are a subsequence of either side of a diff |
| `LineDiff.FillRow` | console/lib/policy.ts:443-444 | fills one row of the table and touches no other |
| `LineDiff.FillTable` | console/lib/policy.ts:441-444 | every cell holds the longest common length of the two tails, when the cells are wide enough |
| `LineDiff.Walk` | console/lib/policy.ts:445-456 | the greedy walk spells both line lists, keeps as many lines as the table says, keeps a line wherever both lists go on with the same one, and removes one only when adding would cost a kept line |
| `LineDiff.WholeDiff` | console/lib/policy.ts:438-458 | such a walk is a diff of the two texts that keeps the most lines |
| `LineDiff.Diff` | console/lib/policy.ts:438-458 | kept plus removed entries are the lines of the old text, kept plus added those of the new one; a line is kept wherever both go on with the same one; no common subsequence is longer than the kept lines; and a line is removed only when no longest diff adds next |
| `SmoothPath.FirstTangents` | console/components/usage-limits.tsx:396-400 | the first tangents, and that none points against a slope beside it |
| `SmoothPath.FirstStart` | console/components/usage-limits.tsx:390-400 | from the points: at an end the rise over the run, between two rises or two falls the mean of both slopes, at a turn or beside a flat segment zero |
| `SmoothPath.RatiosLimited` | console/components/usage-limits.tsx:406-408 | tangent ratios are non-negative and within radius 3 if and only if the tangents are limited |
| `SmoothPath.ShrinkKeepsLimited` | console/components/usage-limits.tsx:401-414 | shrinking a shared tangent never breaks the limit of the segment before |
| `SmoothPath.LimitReaches` | console/components/usage-limits.tsx:409-413 | scaling brings the ratios onto the circle of radius 3 |
| `SmoothPath.LimitSegment` | console/components/usage-limits.tsx:402-413 | a limited pair is left alone; another is scaled, both by one factor in [0, 1], exactly onto the circle |
| `SmoothPath.LimitNext` | console/components/usage-limits.tsx:402-413 | one turn in place on the array extends the chain of turns |
| `SmoothPath.ChainLimits` | console/components/usage-limits.tsx:401-414 | later turns break no segment: every one is limited in the end |
| `SmoothPath.ChainShrinks` | console/components/usage-limits.tsx:401-414 | no tangent grows or changes sign |
| `SmoothPath.ChainSpares` | console/components/usage-limits.tsx:401-414 | a tangent whose segments need no limiting keeps its first value, whatever happens elsewhere |
| `SmoothPath.LimitTangents` | console/components/usage-limits.tsx:401-414 | the tangents are exactly those the chain of turns leaves; every segment is limited, every tangent lies between zero and its first value, and each tangent whose two segments were limited from the start is unchanged |
| `SmoothPath.NoTurn` | console/components/usage-limits.tsx:386-389 | inside the disc the derivative of the unit piece is never negative |
| `SmoothPath.RadiusIsSharp` | console/components/usage-limits.tsx:406-411 | the limit of three is the largest: with one end flat, any steeper tangent makes the piece turn back |
| `SmoothPath.UnitMonotone` | console/components/usage-limits.tsx:386-389 | so the unit piece never falls |
| `SmoothPath.LimitedIsMonotone` | console/components/usage-limits.tsx:415-421 | a drawn segment with limited tangents runs evenly in x, only towards its end in y, with its controls between its ends |
| `SmoothPath.PiecesSmooth` | console/components/usage-limits.tsx:415-421 | the pieces pass through all points in order and each is monotone |
| `SmoothPath.PiecesJoined` | console/components/usage-limits.tsx:415-421 | neighbouring pieces share their tangent |
| `SmoothPath.Draw` | console/components/usage-limits.tsx:390-423 | for any points with increasing x: the curve passes through them, each piece is monotone, neighbours share a tangent, each piece leaves and arrives with its tangents and has its controls a third of the way in, and the tangents are those the points start with after the limiting loop's turns, shrunk only beside a segment that needs it |
| `SmoothPath.NeverOvershoots` | console/components/usage-limits.tsx:386-389 | values between two bounds stay between them along the whole curve |
| `SmoothPath.StraightStaysStraight` | console/components/usage-limits.tsx:386-423 | points on a line are drawn as that line |
| `SmoothPath.CentralDifference` | console/components/usage-limits.tsx:396-400 | on equally spaced points the tangent between two rises or two falls is the central difference |
| `AuthBatch.GetPut32` | relay/derpquic/wire.go:38-60 | a length read back is the length written |
| `AuthBatch.PutGet32` | relay/derpquic/wire.go:38-60 | and back |
| `AuthBatch.BigEndian` | relay/derpquic/wire.go:38-60 | lengths are written most significant byte first |
| `AuthBatch.ReadOwnFrame` | relay/derpquic/wire.go:34-67 | a written frame is read back, whatever follows it |
| `AuthBatch.ReadIsFrame` | relay/derpquic/wire.go:34-67 | a frame that was read is one the writer would write |
| `AuthBatch.ReadFailsWithoutFrame` | relay/derpquic/wire.go:56-67 | reading fails exactly on streams that begin with no whole frame |
| `AuthBatch.Writer.WriteFrame` | relay/derpquic/wire.go:34-54 | sends the frame or, when it is too long, nothing and a protocol error |
| `AuthBatch.Writer.WriteRest` | relay/derpquic/auth_batch.go:33-38 | sends the later parts in order up to the first that does not fit, which is a protocol error; success if and only if there is none |
| `AuthBatch.AuthFrame` | relay/derpquic/generation.go:25-32 | the single-token frame, with its namespace header when there is one |
| `AuthBatch.FirstFrame` | relay/derpquic/auth_batch.go:21-29 | the request's first frame, with the number of parts written in |
| `AuthBatch.Writer.WriteAuthRequest` | relay/derpquic/auth_batch.go:17-39 | succeeds if and only if the number of parts is in range and every frame fits, and then has sent exactly the request; a bad number sends nothing; otherwise exactly the frames before the first that does not fit were sent, with a protocol error |
| `AuthBatch.FitsByFrame` | relay/derpquic/auth_batch.go:21-37 | which parts fit, frame by frame |
| `AuthBatch.GrantPartsSendable` | relay/derpquic/wire.go:219-231 | split credentials are sendable if and only if the first part leaves room for its header |
| `AuthBatch.FullPartHasNoRoom` | relay/derpquic/wire.go:219-231 | for any namespace, split credentials within the limits that cannot be sent |
| `AuthAdmit.MergedAllValid` | relay/derpquic/auth_batch.go:64-86 | a merge exists only if every part verifies |
| `AuthAdmit.NoMergeWithExpired` | relay/derpquic/auth_batch.go:65-74 | an expired part rules a merge out |
| `AuthAdmit.HashesInOrder` | relay/derpquic/auth_batch.go:77 | the digest is taken over the parts' hashes in order |
| `AuthAdmit.FinalIs` | relay/derpquic/auth_batch.go:91-93 | a single part is admitted as it is; of several, their merge under the digest of all their hashes |
| `AuthAdmit.ChargedSince` | relay/derpquic/auth_batch.go:57-63 | a follow-up is charged to the account of the longest start of the parts that merges |
| `AuthAdmit.FramesDecode` | relay/derpquic/auth_batch.go:33-55 | two batches at the front of one stream agree part by part |
| `AuthAdmit.OneMore` | relay/derpquic/auth_batch.go:47-87 | what one more part adds to what was read, charged, found expired, merged and hashed |
| `AuthAdmit.EndsBroken` | relay/derpquic/auth_batch.go:49-62 | a batch that breaks off at a frame or a budget reaches no admission |
| `AuthAdmit.EndsInvalid` | relay/derpquic/auth_batch.go:69-71 | a part that does not verify ends the batch at once, unadmitted |
| `AuthAdmit.EndsUnmatched` | relay/derpquic/auth_batch.go:80-86 | so does a valid part that does not match the merge so far: an identity error if and only if its identity differs, a merge error if and only if it only does not merge |
| `AuthAdmit.EndsExpired` | relay/derpquic/auth_batch.go:88-90 | with an expired part among valid ones the whole batch is read and ErrExpired returned, unadmitted |
| `AuthAdmit.EndsAdmitting` | relay/derpquic/auth_batch.go:91-97 | a whole batch that merges is admitted once, under the digest of all its parts' hashes in order |
| `AuthAdmit.PeerConn.Admit` | relay/derpquic/auth_batch.go:94-97 | puts one grant to admission |
| `AuthAdmit.PeerConn.NextPart` | relay/derpquic/auth_batch.go:48-62 | takes exactly one frame within budget, or says which of the three errors ended the batch |
| `AuthAdmit.PeerConn.AdmitAuthParts` | relay/derpquic/auth_batch.go:41-98 | admission is reached at most once, with all parts verified, none expired and each matching the merge so far, with the in-order fold and the ordered digest; an expired part gives ErrExpired unless a later frame, budget or verification error comes first; success and ErrExpired leave the stream right behind the batch |
| `AuthAdmit.PeerConn.Authenticate` | relay/derpquic/generation.go:34-71 | which headers are refused, which bind the connection, and that the rest is the batch's own outcome |
| `AuthAdmit.HeaderRoundTrip` | relay/derpquic/generation.go:34-62 | the relay reads back count, first part and namespace if and only if the request is answerable |
| `AuthAdmit.HeaderIsWritten` | relay/derpquic/generation.go:34-70 | only frames the writer would write are read as headers |
| `AuthAdmit.RequestOpens` | relay/derpquic/auth_batch.go:17-39 | a request's first frame is read back with all later frames behind it, its header if and only if it is answerable |
| `AuthAdmit.BatchInStep` | relay/derpquic/auth_batch.go:47-56 | what was verified is a prefix of what was sent, and complete batches end the stream in step |
| `AuthAdmit.BatchAccepts` | relay/derpquic/auth_batch.go:41-98 | a request whose parts merge within the budgets is read to its end |
| `AuthAdmit.Exchange` | relay/derpquic/auth_batch.go:17-98 | writer into reader: of an answerable request exactly the sent parts are verified in order, no framing error occurs, and success or ErrExpired leaves the stream right behind the batch; it is admitted if and only if its parts merge within the budgets to a grant that is; another is refused at its header, unverified |
| `CursorPages.WalkFrom` | console/lib/cursor-pages.ts:10-14 | walking from a known page gives what walking from the start gives |
| `CursorPages.WalkFinds` | console/lib/cursor-pages.ts:37-38 | the walk finds the page asked for, or the last one |
| `CursorPages.Known.Put` | console/lib/cursor-pages.ts:35 | an array write: an element, one more element, or a property beside the elements |
| `CursorPages.Known.Learn` | console/lib/cursor-pages.ts:35 | only true cursors are stored; a true list stays a hole-free prefix of the chain when the cursor is learned at its own place or beside the elements, and never gets shorter |
| `CursorPages.Call.constructor` | console/lib/cursor-pages.ts:26-33 | for any page number: a call starts at the page asked for or the last one known; it walks a true list if and only if the number leads to an element of it |
| `CursorPages.Call.Note` | console/lib/cursor-pages.ts:35 | noting a reply keeps the call and its list valid, and a true list true unless the page is zero |
| `CursorPages.Call.Proceed` | console/lib/cursor-pages.ts:38-39 | at its page or the last one the call returns the walk's own result, otherwise it asks for the next page |
| `CursorPages.Call.Step` | console/lib/cursor-pages.ts:28-40 | from one await to the next: the next page, or the walk's own result; a call beside the list returns its one page under the number asked for; page zero makes a list with a second page untrue, a walk of a true list and any other call beside it do not |
| `CursorPages.Pager.Enter` | console/lib/cursor-pages.ts:26-34 | one more call in flight disturbs no list |
| `CursorPages.Pager.Begin` | console/lib/cursor-pages.ts:17-34 | a call for any page number shares the remembered list or starts a fresh one of its own; only page zero endangers the lists |
| `CursorPages.Pager.Resume` | console/lib/cursor-pages.ts:34-39 | resuming any waiting call keeps every list and every call valid, ends a call at its page, and keeps true lists true |
| `CursorPages.Pager.Reject` | console/lib/cursor-pages.ts:34 | a failed request disturbs nobody else |
| `CursorPages.Run` | console/lib/cursor-pages.ts:15-41 | after any interleaving of calls for any page numbers, only true cursors are stored and only true pages returned; without a page zero every cached list is a hole-free prefix of the true chain and every returned call for a whole page from one up has what the plain walk returns |
| `CursorPages.PageZeroSpoils` | console/lib/cursor-pages.ts:28-39 | after page zero of a list with a second page, page one is answered with page two |
| `CursorPages.FractionMisses` | console/lib/cursor-pages.ts:28-39 | page one and a half of a known list is answered with the first page, where a walk from the start returns page two |
| `MarkerStream.Find` | cli/tools/terminal-comparison-benchmark.py:137-138 | the first occurrence, or none |
| `MarkerStream.FirstAtExtends` | cli/tools/terminal-comparison-benchmark.py:118-141 | more input never moves the first occurrence |
| `MarkerStream.KeptDecides` | cli/tools/terminal-comparison-benchmark.py:131-141 | searching what was kept finds what searching everything would |
| `MarkerStream.KeptAfterRead` | cli/tools/terminal-comparison-benchmark.py:131-133 | a read and its trim keep that true for a short marker |
| `MarkerStream.LongMarkerIsLost` | cli/tools/terminal-comparison-benchmark.py:131-152 | for every longer marker there is a feed that brings it whole and on which no look of either loop, however late, finds it |
| `MarkerStream.MissesLong` | cli/tools/terminal-comparison-benchmark.py:143-435 | a fresh session on that feed: neither the wait nor the bulk loop finds the marker |
| `MarkerStream.HeldKept` | cli/tools/terminal-comparison-benchmark.py:143-152 | while a wait finds nothing, everything up to its last look is free of the marker |
| `MarkerStream.HeldPassed` | cli/tools/terminal-comparison-benchmark.py:143-152 | the first look that finds the marker finds its first occurrence in the whole stream |
| `MarkerStream.TurnKept` | cli/tools/terminal-comparison-benchmark.py:425-431 | a turn of the bulk loop loses no byte to the trim |
| `MarkerStream.TailKept` | cli/tools/terminal-comparison-benchmark.py:419-433 | moved and pending bytes together are everything that came |
| `MarkerStream.TailGathered` | cli/tools/terminal-comparison-benchmark.py:420-424 | when the end marker is found, the collected bytes are the stream up to its first occurrence |
| `MarkerStream.NothingLost` | cli/tools/terminal-comparison-benchmark.py:419-435 | when it is not, collected and unread bytes are the whole stream, and it had not come by the last look |
| `MarkerStream.Session.ReadOnce` | cli/tools/terminal-comparison-benchmark.py:118-134 | appends one chunk and keeps the last 8 MiB; an empty read changes nothing |
| `MarkerStream.Session.Consume` | cli/tools/terminal-comparison-benchmark.py:136-141 | moves past the first occurrence in the buffer, or leaves it |
| `MarkerStream.Session.WaitMarker` | cli/tools/terminal-comparison-benchmark.py:143-152 | for every marker: finds it at the first look whose kept bytes hold it, or missed it at every look; for a short one, however the input is chunked: moves past the first occurrence in the whole stream, or times out only if the marker had not arrived by the last look |
| `MarkerStream.Session.Collect` | cli/tools/terminal-comparison-benchmark.py:416-435 | for every end marker: stops at the first look whose kept bytes hold it, with what it moved aside; for a short one: collects exactly the stream up to its first occurrence, and no exit has lost a byte |
| `MarkerStream.Session.Bulk` | cli/tools/terminal-comparison-benchmark.py:415-435 | for every pair of markers: the look that found the begin marker, the turn that found the end marker or ran out, and exactly the bytes moved aside between; for short ones: what lies between the first begin marker and the first end marker after it, or, without an end marker, collected and unread bytes are all that follows the begin marker |
| `MarkerStream.ChunkingIsInvisible` | cli/tools/terminal-comparison-benchmark.py:404-435 | two ways of chunking one stream collect the same bytes |
| `MachineFilter.WordsOfJoin` | console/lib/machine-filter.ts:44-56 | joined words split into the same words |
| `MachineFilter.WordsApart` | console/lib/machine-filter.ts:45 | any white space keeps words apart |
| `MachineFilter.AsFilter` | console/lib/machine-filter.ts:30-38 | a filter read from a token has a value its key allows |
| `MachineFilter.CaseDoesNotMatter` | console/lib/machine-filter.ts:30-38 | a token is read alike in any case, of the key and of the value |
| `MachineFilter.FilterIsToken` | console/lib/machine-filter.ts:30-38 | a token is a filter if and only if it spells, in any case, a key, a colon and a value the key allows |
| `MachineFilter.TokenIsFilter` | console/lib/machine-filter.ts:30-55 | a token made for an allowed value, in any case, is read as that filter |
| `MachineFilter.TokenIsFree` | console/lib/machine-filter.ts:30-55 | a token for any other word is free text |
| `MachineFilter.LastWins` | console/lib/machine-filter.ts:40-50 | each filter is that of the last token naming its key; other keys have none |
| `MachineFilter.FreePlaces` | console/lib/machine-filter.ts:44-49 | every word that is no filter is kept as free text, in its order |
| `MachineFilter.KeptPlaces` | console/lib/machine-filter.ts:53-54 | a change keeps every word that does not name its key, in its order |
| `MachineFilter.FilterIsAllowed` | console/lib/machine-filter.ts:41-50 | every parsed filter has an allowed value |
| `MachineFilter.ParseQuery` | console/lib/machine-filter.ts:41-50 | the loop computes last-wins filters and the free words in order, in lower case |
| `MachineFilter.WordsAfter` | console/lib/machine-filter.ts:53-57 | a changed query has the kept words as typed and in order, then the new token's |
| `MachineFilter.RemoveErases` | console/lib/machine-filter.ts:52-57 | removing erases exactly that key and leaves the text |
| `MachineFilter.SetChanges` | console/lib/machine-filter.ts:52-57 | setting changes exactly that key, if and only if the value is allowed |
| `MachineFilter.SetWhatIsThere` | console/lib/machine-filter.ts:41-57 | setting a key to what it has changes nothing after parsing |
| `MachineFilter.SetOverwrites` | console/lib/machine-filter.ts:52-57 | a second change overwrites the first string for string if and only if all the first added was tokens of that key |
| `MachineFilter.AllowedIsOverwritten` | console/lib/machine-filter.ts:52-57 | as after any allowed value |
| `MachineFilter.ValueStays` | console/lib/machine-filter.ts:52-57 | a word that is not an allowed value is never overwritten |
| `MachineFilter.SetsCommute` | console/lib/machine-filter.ts:41-57 | changes of different keys to any values commute after parsing if and only if what they add agrees: no key with two values, neither key set by the other change alone, free words that commute |
| `MachineFilter.AllowedCommute` | console/lib/machine-filter.ts:41-57 | as for allowed values and removals |
| `MachineFilter.OrderShows` | console/lib/machine-filter.ts:41-57 | two words that are not allowed values of their keys never commute |
| `MachineFilter.OddValues` | console/lib/machine-filter.ts:52-57 | `x` for status and os is such a word, in any query |
| `RecentMachines.RecencyOrder` | console/lib/recent-machines.ts:3 | the reference list has every id of the history once, ordered by last use |
| `RecentMachines.CutEarly` | console/lib/recent-machines.ts:18 | cutting before an id is put in front loses nothing the cut after it keeps |
| `RecentMachines.CuttingLosesNothing` | console/lib/recent-machines.ts:16-23 | from empty storage, cutting at every call gives the first five of the whole history by recency |
| `RecentMachines.IdsInOrder` | console/lib/recent-machines.ts:10 | of a stored list the texts are read, in order, and nothing else |
| `RecentMachines.Stores` | console/lib/recent-machines.ts:7-19 | what is stored is read back, and other workspaces keep theirs |
| `RecentMachines.Browser.RecentMachines` | console/lib/recent-machines.ts:7-14 | the stored texts, at most five, or nothing when unreadable or not a list; after any calls, the first five of the workspace's history by recency |
| `RecentMachines.Browser.RememberMachine` | console/lib/recent-machines.ts:16-23 | each workspace's list stays the first five of its history by recency; unwritable storage changes nothing, an unreadable list starts over |
| `TestLog.FateStep` | tools/gotest-json.py:27-43 | how one line changes the fate of an earlier line's output |
| `TestLog.FateByLine` | tools/gotest-json.py:27-43 | output is printed if and only if a failure of its test or package is reported before the test finishes, dropped if and only if the test finishes first, and held while neither is reported |
| `TestLog.FatesStep` | tools/gotest-json.py:27-43 | a deciding line moves all held output to its fate, after what had it already |
| `TestLog.Partition` | tools/gotest-json.py:27-43 | a test's lines are split among held, printed and dropped, each line once |
| `TestLog.FateInOrder` | tools/gotest-json.py:27-43 | each of the three lists is in input order |
| `TestLog.PartitionMember` | tools/gotest-json.py:27-43 | a line's output is in the list of its fate and in no other |
| `TestLog.FlushedOf` | tools/gotest-json.py:32-33 | flushing writes each of a package's buffers once, whole and in order |
| `TestLog.LineMoves` | tools/gotest-json.py:27-43 | every line has the right effect on the buffer and output of every test |
| `TestLog.LinePlain` | tools/gotest-json.py:22-36 | lines of no test are printed at once, in order, in both modes |
| `TestLog.FailureEmpties` | tools/gotest-json.py:28-33 | a failing package leaves none of its tests' output buffered |
| `TestLog.PendingInOrder` | tools/gotest-json.py:32-39 | the tests with held output come in the order of the first line each holds |
| `TestLog.KeysAdvance` | tools/gotest-json.py:27-43 | the buffers belong to exactly the tests with held output, in the order they began to hold it |
| `TestLog.LineReleases` | tools/gotest-json.py:20-44 | every line appends exactly what it releases: a failing test's held lines and its own in one block, a failing package's held tests one after the other and then its own line |
| `TestLog.OwnOutputLast` | tools/gotest-json.py:32-41 | of all a line releases, its own output is last |
| `TestLog.Advances` | tools/gotest-json.py:20-44 | every line keeps the log right |
| `TestLog.LogIsRight` | tools/gotest-json.py:18-44 | after any number of lines the output is what the lines released, line by line, and the buffers and each test's output are what its lines' fates say; verbose prints everything in order |
| `TestLog.Printer.Flush` | tools/gotest-json.py:32-33 | prints and empties a package's buffers in insertion order |
| `TestLog.Printer.PackageLine` | tools/gotest-json.py:28-34 | a package's line: flushed buffers first if it failed, then its own output |
| `TestLog.Printer.TestLine` | tools/gotest-json.py:38-43 | a test's line: buffered, then printed or dropped as its action says |
| `TestLog.Printer.Step` | tools/gotest-json.py:20-44 | one line is saved whole and moves the log as that line should |
| `TestLog.Printer.Run` | tools/gotest-json.py:18-44 | after the whole input the saved text is the input and the log is right |

## Left out

- Docker, systemd, Caddy and subprocess behaviour: each command is one step that takes effect or raises; containers do not stop on their own and `/readyz` is an oracle.
- Text-level matching of the rollout's two regular expressions: the Caddyfile and `.env` are values already cut at the directives they match.
- A Caddyfile in which a managed host other than the active one is an upstream from the start: the program would not protect that container.
- Malformed socket tables (an address without a port) and proxy restarts in the middle of a rollout.
- Rollout image pruning, log retention and the drain signal's effect: best effort, no part of the protocol state.
- A KeyboardInterrupt landing after the journal was unlinked but still inside the `try`: exceptions come only from steps, and a raising rename or unlink had no effect.
- Reap progress after dying between `docker rm` and the save, and absence of orphan candidates after dying before the journal: the program does not provide them.
- JSON.parse and the HTTP half of the policy code; UTF-16 surrogates: characters are Unicode scalar values.
- LineDiff.Diff: optimality is stated for texts of fewer lines than a 32-bit cell can count, because larger lengths wrap in the source's table.
- Floating-point rounding and two-decimal text in the curve: arithmetic is over the reals, and the square root is any function with the square root's property.
- Grant signatures, the identity test, merging, the digest, admission itself, the rate limiter, read deadlines and I/O errors of the writer: parameters of the model.
- Page chains that change between requests, infinite page numbers and the rounding of very large ones: page numbers are reals.
- MarkerStream.Session.WaitMarker: the whole-stream result is for markers that leave room for a chunk within the limit (the program's own are a few dozen bytes), since it fails for every longer one; deadlines are a number of turns.
- MarkerStream.Session.Bulk: the same, for both its markers.
- MarkerStream.Session.Collect: the same; the normalisation and hash comparison after it are plain library calls.
- Prototype lookups through JavaScript's `in` and Unicode case folding in the search text: own option keys and ASCII case only.
- JSON values that are not objects, and null outputs, in the test event stream: the printer stops on them.
- React components, animation, marketing data, API wrappers, linters and release scripts: user interface, I/O or data.
