# Verified model of the ssac code generator and its runtime packages

The repository turns service functions, written as comment lines such as
`@get Course course = Course.FindByID({CourseID: request.CourseID})`, into Go handlers. It also ships the
runtime packages those handlers use. This project models the parts with the most state and the most
arithmetic, and proves what they are for.

**The sequence compiler** (`SequenceDsl`, `GoBody`, `CallOrder`, `CallAgreement`, `CallPrecedence`, `HandlerGen`,
`VariableFlow`, `SourceRules`, `PreambleScope`, `Handler*`, `SourceExamples`). `HandlerGen` is the generator: its
loops, its `Tracker` of declared names, and the statements each template emits, as a small statement language.
`GoBody` gives that language Go's rules for variables (`Compiles`: every read and `=` finds its variable, every
`:=` brings something new, every variable is used) and an execution (`Run`) over an oracle for every outside call,
with transactions, early returns and deferred rollback. `HandlerMeaning` says what a function means without any Go
and without the generator's decisions: decode the request, open a transaction if anything is posted, put or
deleted, walk the sequences, stop at the first failure with its documented status and message. `SourceRules` says
which functions the results are about: an *accepted* function passes the checks and its variables do not clash
(`AcceptedSource`); a *sound* one moreover writes its values in the documented form and fetches the current user
where it shows it (`SoundSource`). The main results hold for every request and every oracle: the emitted body of a
sound function does what its sequences mean (`MeaningPreserved`), it answers 400 exactly when the request does not
decode (`BadRequestExact`), writes are all or nothing (`AllOrNothing`), commits are disciplined (`CommitOnce`), and
Go accepts the emitted body of an accepted function exactly under a condition on its sequences (`CompilesExact`);
`SourceExamples` and `HandlerScopeLimits` give functions on which each part of it fails, and one on which all hold.
Call arguments have an exact order (`OrderExact`), and call sites and derived interfaces agree positionally exactly
under the condition of `AgreeExact`.

**ISO 8601 intervals** (`Decimal`, `Interval`, `IntervalRoundTrip`, `IntervalCanonical`), the durations of section
4.4.3.2 of ISO 8601:2004: printer, scanner and parser with Go's truncating division, 32- and 64-bit wrap-around and
bounded decimal reading. The parser inverts the printer on every int32/int32/int64 triple except those with
the least int64, which print with two minus signs and are rejected (`RoundTrip`), and the printed text is canonical
(`ShownComponents`, `ShownNumbers`).

**Refresh token rotation** (`RefreshStore`, `Rotation`, `RotationRuns`): the in-memory store, the rotation
call, and a transition system in which any number of rotations, logins, logouts and sweeps interleave.

**The line parser** (`LineText`, `LineParser`, `LineGrammar`, `ResponseSyntax`, `CommentSyntax`): the parser inverts
the documented line syntax, block and single-line responses agree, whole comments are read back statement by
statement, and a bad input fails them.

**Smaller analyses** (`StaleResponse`, `DdlReader`, `DdlText`, `DdlSchema`, `SnakeCase`, `UuidText`).

Loops and objects that the source updates in place are methods and classes here, each proved equal to a
specification function; the laws are lemmas about those functions. Calls that leave the code (the database,
the clock, token signing, request decoding) are parameters or oracles.

Where code and documentation disagree, the code is followed: a result-less `@call` answers 500 (README
says 401); `currentUser` is fetched for every `@auth` and for inputs (README names inputs only), but not for
`@response` fields, guards or subscribers, although the flow check accepts it there (`UserMustBeFetched`).

Some promises hold only under a condition, which is proved exact. A function can pass every check and yield a
handler that Go rejects, for one of four reasons, all in `CompilesExact`:

- It names a source its handler has no variable for: a bare `request`, `query.X`, or a current user that is shown
  but not fetched: `SourcesDeclared`, with `UndeclaredSourceRejected` and `BareRequestRejected`.
- `errDeclared` also counts an `err` that lives only inside an `if` (result-less `@call`, `@auth`):
  `ErrDiscipline`, with `TwoChecksRejected` and `AuthTwiceRejected`. With a write this never happens
  (`WritesCompile`).
- `total` is taken for declared after `_, total, err =` and after a list query in a `@post` or `@call`:
  `TotalDiscipline`, with `UnusedListQueryRejected` and `PostedListRejected`, `AuthThenListRejected` and
  `PostThenShowRejected`.
- Something is declared and not used: a result referred to only by the `UserID` or `Role` input of an `@auth`,
  which the template overrides; the `total` of a list shown whole; a parameter or query nothing passes on:
  `EverythingRead`, with `UnreadResultRejected`, `UnreadTotalRejected`, `UnpassedParamRejected` and
  `IgnoredParamRejected`.

And the derived interface appends unlisted keys in map order while the call site sorts them: `AgreeExact`.

## Model

| member | source | states |
|---|---|---|
| HandlerCorrect.MeaningPreserved | generator/go_handler.go:13-205 | for every sound function, request and oracle, a run of the emitted body makes the calls, replies and stored writes of walking the sequences left to right and stopping at the first failure, and leaves no transaction open |
| HandlerCorrect.GeneratedHandlerCorrect | generator/go_handler.go:61-122 | for a sound function under the exact condition for compiling, the emitted body compiles and has exactly that meaning |
| HandlerRequests.BadRequestExact | generator/go_params.go:63-183 | a run of an HTTP handler is one 400 reply, with no call and nothing stored, exactly when an int64 or float64 path parameter does not convert, or, with a @post or @put and a request field outside the path (or with symbols and two of them), the JSON body does not decode, or, in every other function, an int64, float64, bool or time query parameter does not convert; no other run sends that reply |
| HandlerRequests.BodyIgnored | generator/go_params.go:63-85 | where the request fields do not come in a body, the run does not depend on the body |
| HandlerCompiles.CompilesExact | generator/go_handler.go:78-110 | Go accepts the emitted body (scoping, and no variable declared and not used) of an accepted function if and only if the handler has a variable for every source it names, err and total are declared where the generator thinks they are, and every named result, request parameter, query and total is used |
| HandlerCompiles.WritesCompile | generator/go_handler.go:61-110 | with a write, err is never the reason: only undeclared sources, total and unused variables are |
| HandlerCompiles.EverythingReadExact | generator/go_helpers.go:250-273 | with every source declared, every declared variable is read if and only if the sequences use it; the UserID and Role inputs of @auth do not count as a use |
| HandlerReads.SequenceReadsExact | generator/go_helpers.go:158-184 | exactly which variables, parameters and sources the code of one sequence reads |
| HandlerSources.ScopeExact | generator/go_helpers.go:188-222 | Go accepts the scoping (every read declared, every `=` has a target, every `:=` something new) of an accepted function if and only if every source it names has a variable and the closed-form conditions on err and total hold |
| HandlerSources.UndeclaredSourceRejected | validator/validator.go:205-208 | naming a source without a variable (bare `request`, `query.X`, a current user not fetched), which the flow check lets through, is always rejected by Go |
| HandlerSources.SoundIsDeclared | validator/validator.go:168-234 | conversely documented values and a fetched current user leave no source without a variable |
| HandlerTracking.ErrDisciplineExact | generator/go_helpers.go:188-222 | the closed form for err equals following it sequence by sequence through `:=`, `=` and if-scoped bindings |
| HandlerTracking.TotalDisciplineExact | generator/go_handler.go:94-106 | the closed form for total equals following it through list queries, `_` results and responses |
| HandlerScopeLimits.BareRequestRejected | validator/validator.go:205-208 | `@publish "topic" {ID: request}` passes every check, meets every other condition, and is rejected |
| HandlerScopeLimits.SubscriberCompiles | validator/validator.go:174-176 | a subscriber that publishes `message.OrderID` passes every check and its handler compiles |
| HandlerScopeLimits.TwoChecksRejected | generator/go_helpers.go:188-222 | any handler that starts with two if-scoped checks and no declared err is rejected by Go |
| HandlerScopeLimits.AuthTwiceRejected | generator/go_templates.go:63-69 | such a function, two @auth, passes every check |
| HandlerScopeLimits.UnusedListQueryRejected | generator/go_handler.go:101-106 | a first list query with an unused result after err is tracked assigns a total that does not exist |
| HandlerScopeLimits.PostedListRejected | generator/go_helpers.go:129-132 | a response listing its fields after a @post or @call list query reads a total that does not exist |
| HandlerScopeLimits.AuthThenListRejected | generator/go_handler.go:101-106 | such a function passes every check: an @auth, then a list query whose result is unused |
| HandlerScopeLimits.PostThenShowRejected | generator/go_helpers.go:129-132 | such a function passes every check: a @post that queries a list, its result shown as a field |
| HandlerScopeLimits.UnreadTotalRejected | generator/go_templates.go:10-16 | a list query shown whole passes every check, is well scoped, and leaves total unused |
| HandlerScopeLimits.UnreadResultRejected | generator/go_helpers.go:160-175 | a result used only as an @auth UserID passes every check, is well scoped, and is left unused, even with a write |
| HandlerScopeLimits.UnpassedParamRejected | generator/go_handler.go:34-36 | a path parameter no sequence passes on or names is left unused |
| HandlerScopeLimits.IgnoredParamRejected | generator/go_handler.go:34-36 | such a function passes every check: a path parameter and `@response {}` |
| HandlerRuns.StatusMeans | generator/go_helpers.go:76-156 | the generated status of every failing sequence is the documented one |
| HandlerRuns.GuardMeans | generator/go_helpers.go:134-139 | the generated test of @empty and @exists is the zero, or presence, test of the declared type |
| HandlerSources.UserMustBeFetched | generator/go_helpers.go:229-248 | a body that compiles shows currentUser in guards and responses only beside an @auth or an input that fetches it, and never in a subscriber |
| HandlerSources.UndeclaredIsRejected | generator/go_templates.go:10-182 | code that reads a name none of its statements declares is rejected |
| HandlerAtomicity.AllOrNothing | generator/go_handler.go:61-93 | every run of a function with a write stores nothing, or exactly the successful writes of its trace, which are the model calls of the write sequences before the first @response, one each, in order, by model and method |
| HandlerAtomicity.AllWritesOrNone | generator/go_handler.go:61-122 | when no write follows the first @response: the model call of every write sequence in order, or none |
| HandlerAtomicity.CommitOnce | generator/go_handler.go:85-93 | at most one commit, only after successful calls, before any success reply, never after a failed step; a run without an error reply commits |
| HandlerGen.GenerateHTTPFunc | generator/go_handler.go:13-145 | the imperative HTTP generator emits the specified body, whose meaning is that of MeaningPreserved, or fails exactly when a result or half of a model call is missing |
| HandlerGen.GenerateSubscribeFunc | generator/go_handler.go:150-228 | the subscribe generator likewise, with its own commit placement |
| HandlerGen.Tracker.BuildTemplateData | generator/go_helpers.go:64-225 | the four flags of the template data (`:=` or `=`, total, unused) and the new values of errDeclared and declaredVars, for every sequence and tracked state |
| HandlerGen.AppendSequence | generator/go_handler.go:78-110 | one turn of the emitting loop: the code appended, the commit placed before the first response, the tracked state after it |
| HandlerGen.CollectUsedVars | generator/go_helpers.go:250-273 | exactly the roots of targets, of inputs that are no literal and no request, user or query value, and of fields that are no literal |
| HandlerGen.CollectRequestParams | generator/go_params.go:22-60 | every request field used and not in the path, once each |
| VariableFlow.ValidateVariableFlow | validator/validator.go:168-234 | reports exactly the undeclared references, config inputs and published queries; no report means acceptance |
| VariableFlow.AcceptedMeans | validator/validator.go:168-234 | acceptance in the words of the source language: every target, input and field is a literal, the result of an earlier sequence, currentUser, in inputs request or query, in a subscriber message; no config input and no published query |
| VariableFlow.ReportMeans | validator/validator.go:168-234 | each report says exactly one such violation |
| CallOrder.BuildCallKeys | generator/go_args.go:74-118 | the order of call arguments |
| CallOrder.DeriveSlots | generator/go_interface.go:117-152 | the order of interface parameters for some iteration order of the inputs |
| CallPrecedence.OrderExact | generator/go_args.go:74-118 | which of two arguments comes first: listed parameters in their order, then the other keys ascending; without a list ascending with the query last |
| CallPrecedence.InterfaceExact | generator/go_interface.go:117-152 | one parameter for every input that is no query, and `opts` last exactly when there is a query |
| CallPrecedence.InterfaceOrder | generator/go_interface.go:117-152 | listed parameters keep their order |
| CallAgreement.AgreeExact | generator/go_interface.go:117-152 | call and interface agree positionally for every map iteration order if and only if Params is empty, or at most one plain key is outside Params and there is at most one query, either the last supplied parameter with nothing outside, or outside and sorting last |
| CallAgreement.QueryLastExact | generator/go_args.go:74-118 | that condition on the inputs says exactly that `opts` is the last argument or absent |
| CallAgreement.TwoExtrasDisagree | generator/go_interface.go:117-152 | an input with two unlisted keys on which they disagree |
| CallAgreement.QueryFirstDisagrees | generator/go_args.go:74-118 | an input whose query is not the last parameter on which they disagree |
| CallAgreement.AgreeWhenOneExtra | generator/go_args.go:74-118 | so they agree whenever at most one key is outside Params and no query-valued key is in Params |
| CallAgreement.ArgumentsAreInputs | generator/go_args.go:74-118 | with duplicate-free Params and at most one query the arguments are a permutation of the inputs |
| IntervalRoundTrip.RoundTrip | pkg/pgtypex/format_interval_iso.go:16-77 | over all int32 months and days and int64 microseconds, parsing the printed text gives the interval back if and only if the microseconds are not the least int64; those are rejected |
| IntervalRoundTrip.FormatInjective | pkg/pgtypex/format_interval_iso.go:16-77 | distinct intervals print distinctly, the least int64 included |
| IntervalCanonical.ShownComponents | pkg/pgtypex/format_interval_iso.go:16-77 | which components are printed: Y exactly from twelve months on, M when months remain, D when there are days, H from an hour on, minutes from a minute on, S exactly when the microseconds are no whole minutes or the interval is zero, a dot exactly when they are no whole seconds |
| IntervalCanonical.ShownNumbers | pkg/pgtypex/format_interval_iso.go:16-77 | their numbers: signed like their amount, none zero, months below twelve, minutes and seconds below sixty, written as decimal numbers |
| IntervalCanonical.UnknownUnit | pkg/pgtypex/scan_interval_components.go:30-82 | a number with a unit its half does not know spoils the half wherever it stands |
| IntervalCanonical.NoDuration | pkg/pgtypex/parse_interval_iso.go:16-30 | texts without a P or with nothing after it are rejected |
| IntervalRoundTrip.ReadBackNeverWraps | pkg/pgtypex/scan_interval_components.go:15-83 | reading printed text back involves no overflow: no contribution and no running total wraps |
| IntervalRoundTrip.ParsedIsStable | pkg/pgtypex/parse_interval_iso.go:16-39 | for every accepted text, printing its value and parsing again changes nothing, with the same exception |
| IntervalRoundTrip.FractionInverse | pkg/pgtypex/parse_seconds_to_micros.go:10-46 | w followed by the printed fraction f reads as w*10^6+f, and with a minus sign as the negation, w = 0 included |
| IntervalRoundTrip.FractionIsShort | pkg/pgtypex/format_interval_frac.go:10-17 | the printed fraction has at most six digits and no trailing zero |
| IntervalRoundTrip.FractionIsCut | pkg/pgtypex/parse_seconds_to_micros.go:10-46 | digits of a fraction beyond the sixth are cut off |
| IntervalRoundTrip.ScanConcat | pkg/pgtypex/scan_interval_components.go:15-83 | scanning a concatenation gives both component lists and adds their sums |
| IntervalRoundTrip.SumPermutation | pkg/pgtypex/scan_interval_components.go:30-82 | component order does not matter |
| Interval.AccumulateIsSum | pkg/pgtypex/scan_interval_components.go:30-82 | adding components one by one in 32/64-bit arithmetic is adding the exact weighted sum once, modulo the width |
| Interval.ScanIntervalComponents | pkg/pgtypex/scan_interval_components.go:11-84 | the scanner fails exactly on malformed halves and otherwise grows its accumulators by the wrapped weighted sum |
| Interval.ParseSecondsToMicros | pkg/pgtypex/parse_seconds_to_micros.go:10-46 | the exact value of the seconds text, wrapped once, or failure |
| Interval.ParseIntervalISO | pkg/pgtypex/parse_interval_iso.go:16-39 | the parser computes the sums of both halves, or fails |
| Interval.FormatIntervalISO | pkg/pgtypex/format_interval_iso.go:16-77 | the printer, with `us` reduced in place, writes the specified text |
| Decimal.ParseFormat | pkg/pgtypex/format_interval_iso.go:25-33 | bounded decimal reading inverts decimal printing on 32 and 64 bits |
| Decimal.DecimalText | pkg/pgtypex/format_interval_iso.go:25-33 | the decimal text digit by digit, without plus sign or leading zero |
| RefreshStore.MemoryRefreshStore.Create | pkg/auth/memory_refresh_store.go:31-43 | the contents gain one unrevoked row for the hash, replacing any earlier one |
| RefreshStore.MemoryRefreshStore.Consume | pkg/auth/memory_refresh_store.go:45-62 | missing, reused (even if expired), expired or granted; a grant revokes that row and nothing else |
| RefreshStore.MemoryRefreshStore.Revoke | pkg/auth/memory_refresh_store.go:64-73 | revokes that row if it exists; idempotent |
| RefreshStore.MemoryRefreshStore.RevokeAll | pkg/auth/memory_refresh_store.go:75-91 | an empty matcher is refused and changes nothing; otherwise exactly the rows containing the matcher are revoked, whatever the iteration order |
| RefreshStore.MatchClaims | pkg/auth/memory_refresh_store.go:95-113 | true exactly when the blob is an object whose pairs include those of the matcher |
| RefreshStore.ConsumeExact | pkg/auth/memory_refresh_store.go:45-62 | each answer of a use and the row it changes, in terms of the row |
| RefreshStore.SweepMeans | pkg/auth/memory_refresh_store.go:75-113 | a sweep revokes exactly the rows whose object has every pair of a non-empty matcher |
| RefreshStore.SweepReaches | pkg/auth/memory_refresh_store.go:75-113 | in particular rows that extend the matcher by further pairs |
| RefreshStore.ContainsIsAnOrder | pkg/auth/memory_refresh_store.go:95-113 | containment is reflexive, transitive and antisymmetric on claim objects |
| RefreshStore.OneTimeUse | pkg/auth/memory_refresh_store.go:31-91 | in any sequence of operations, between two grants of a token, and between its revocation and a grant, the token was created again |
| RefreshStore.UsableOnce | pkg/auth/memory_refresh_store.go:31-91 | conversely a token created and then neither granted nor revoked is granted until it expires, with its claims |
| RefreshStore.RowKept | pkg/auth/memory_refresh_store.go:31-91 | short of a new Create, claims and expiry never change and revocation is permanent |
| Rotation.RefreshRotate | pkg/auth/refresh_rotate.go:35-87 | the rotation call, with both store arguments and every early exit, changes the contents as specified |
| Rotation.RotationExact | pkg/auth/refresh_rotate.go:46-86 | succeeds exactly for a verified, active, unexpired token that can be re-signed; then the old row is revoked, the new one active under the same claims, all others unchanged |
| Rotation.RefusalsExact | pkg/auth/refresh_rotate.go:35-87 | when each other answer is given and what it changes; a failed signing spends the token |
| Rotation.RotatedIsSpent | pkg/auth/refresh_rotate.go:46-86 | rotating again reports reuse exactly when the new token's hash differs from the old one |
| Rotation.LockoutIsExact | pkg/auth/refresh_rotate.go:53-62 | a reuse with lockout on and non-empty claims revokes exactly the rows containing all those claims; every other reuse changes nothing |
| RotationRuns.Lineage | pkg/auth/refresh_rotate.go:46-86 | in every interleaving, active rows of one login plus its rotations between Consume and Create number at most one, and every row carries its login's claims |
| RotationRuns.EndedSessionStaysEnded | pkg/auth/refresh_rotate.go:46-86 | a login with neither never has an active row again |
| RotationRuns.LockoutReach | pkg/auth/refresh_rotate.go:53-62 | after a sweep, no row with those claims becomes active short of a new login, in any continuation, if and only if no rotation carrying them is in flight |
| RotationRuns.UninterruptedCall | pkg/auth/refresh_rotate.go:35-87 | the steps of one call run without interruption are the rotation call |
| LineGrammar.ParserInvertsGrammar | parser/parser.go:163-497 | every statement of the documented syntax whose parts avoid the delimiters, with or without `!`, status, package and wrapper, parses from its line to exactly its sequence |
| ResponseSyntax.OrderDoesNotMatter | parser/parser.go:566-591 | inputs written in any order give the same map |
| ResponseSyntax.SyntaxesAgree | parser/parser.go:114-159 | a response block, indented anyhow and with optional commas, yields the same sequence as the single line with the same fields, and parsing goes on alike |
| CommentSyntax.CommentsBack | parser/parser.go:114-159 | comments that write any list of well-formed statements, with responses in either syntax and other text between them, are read as exactly those statements in order |
| CommentSyntax.MissingColonFails | parser/parser.go:566-591 | a statement whose inputs hold a part without a colon makes the comment fail, whatever stands before and after it |
| CommentSyntax.OpenBlockDropped | parser/parser.go:114-159 | a response block that is never closed is dropped, and what stands before it stays |
| CommentSyntax.FieldSkipped | parser/parser.go:547-563 | a response line without a colon says nothing |
| CommentSyntax.BlankSkipped | parser/parser.go:566-591 | nor does a blank part of the inputs |
| LineGrammar.StatusRange | parser/parser.go:286-301 | a trailing status counts only from 100 to 599 |
| LineParser.ParseComments | parser/parser.go:114-159 | the one-pass loop with its block flag computes the specified items, or stops at the first error |
| LineParser.ParseInputs | parser/parser.go:566-591 | the loop over pairs computes the specified map, or fails at a pair without a colon |
| LineParser.ParseResponseFields | parser/parser.go:547-563 | the loop over field lines computes the specified map |
| StaleResponse.ValidateStaleResponse | validator/validator.go:237-278 | warns once, in order, about exactly the fields of unsuppressed responses whose latest fetch's model was last touched by a put or delete |
| StaleResponse.LatestIsLast | validator/validator.go:237-278 | "latest" means that no binder or toucher of that name comes in between |
| StaleResponse.StaleExact | validator/validator.go:237-278 | in terms of the sequences: the variable's last @get loaded a model that was put or deleted and not loaded again |
| StaleResponse.ChangeWarns | validator/validator.go:256-274 | a change of the model right after the fetch makes the field stale |
| DdlReader.ParseDDLTables | validator/symbol.go:794-901 | the line loop computes the specified tables |
| DdlReader.ReadingIsConsistent | validator/symbol.go:794-901 | after any lines every column order names exactly the table's columns, and the open table is none or present |
| DdlReader.UnnamedUnchanged | validator/symbol.go:794-991 | a table no line names is neither opened nor changed |
| DdlText.UnmentionedUnchanged | validator/symbol.go:794-991 | reading a file neither creates nor changes a table whose name does not occur in its text |
| DdlText.DefinitionOpens | validator/symbol.go:809-821 | the word after CREATE TABLE is the table that is opened |
| DdlText.IfNotExistsOpensIf | validator/symbol.go:809-821 | also after IF NOT EXISTS, where the opened table is called IF |
| DdlReader.DefinitionStartsAfresh | validator/symbol.go:810-821 | a complete definition gives the table it gives on an empty schema and leaves all others alone |
| DdlSchema.DefinitionGives | validator/symbol.go:809-893 | the table of a complete definition: columns in the order of their lines with the type of the last one, and exactly the foreign keys, unique indexes and primary key its lines state |
| DdlSchema.IndexStatement | validator/symbol.go:946-991 | an index is added to the table it names if that was read and a column is named; nothing else changes |
| DdlSchema.ColumnReads | validator/symbol.go:868-893 | the text of a column line: first word the column, second the type, primary and unique by the words in the line |
| DdlSchema.IndexReads | validator/symbol.go:946-991 | the text of an index line: its name, table, columns and uniqueness |
| DdlSchema.NamesBack | validator/symbol.go:1003-1010 | a written list of names is read back |
| DdlSchema.ParenthesesRead | validator/symbol.go:994-1011 | the columns of a key or unique line are those in its parentheses |
| DdlReader.SplitOverFiles | validator/symbol.go:769-791 | reading in two files is reading once wherever no definition is open |
| SnakeCase.ToSnakeCase | generator/generator.go:113-131 | the loop computes the specified name, one byte per character |
| SnakeCase.SnakeSplits | generator/generator.go:113-131 | at a boundary, a capital after a small letter or between a capital and a small letter, the name splits into halves converted separately and joined by an underscore |
| SnakeCase.SnakeOfWord | generator/generator.go:113-131 | a name without boundaries is converted letter by letter |
| SnakeCase.CapitalsExact | generator/generator.go:113-131 | the result has no capitals if and only if no character outside ASCII has a capital for its low byte |
| SnakeCase.SnakeIsIdempotent | generator/generator.go:113-131 | for ASCII names: no capitals in the result; converting twice is converting once |
| SnakeCase.OnlyUnderscoresAdded | generator/generator.go:113-131 | for ASCII names: without underscores the result is the name in small letters |
| SnakeCase.SnakeIsWellSeparated | generator/generator.go:113-131 | an underscore-free ASCII name gets no leading, trailing or doubled underscore |
| SnakeCase.SnakeCollides | generator/generator.go:113-131 | distinct names can give the same result |
| UuidText.UUIDToString | pkg/pgtypex/uuid_to_string.go:15-31 | each octet as two small hexadecimal digits at its 8-4-4-4-12 place, dashes in between; NULL is empty |
| UuidText.RoundTrip | pkg/pgtypex/uuid_to_string.go:15-31 | the text is canonical (section 4 of RFC 9562) and decodes to the octets |
| UuidText.DigitsInOrder | pkg/pgtypex/uuid_to_string.go:15-31 | the k-th digit is that of the k-th half octet, with dashes after 8, 12, 16 and 20 digits |
| UuidText.TextDetermines | pkg/pgtypex/uuid_to_string.go:15-31 | equal texts if and only if equal octets |

## Left out

- HandlerCompiles.CompilesExact: variables are modelled (declared, assigned, used); type checking, imports, shadowing of package names and gofmt are not.
- HandlerCorrect.MeaningPreserved: error texts are data, statuses numbers, a nil map an empty one, a failed commit stores nothing, and a model call on a finished transaction fails; where Go rejects the code for want of a total, the model shows a nil one.
- HandlerCorrect.MeaningPreserved also takes templates, `strcase` conversions (only request parameters are renamed, by an arbitrary function) and text/template execution as data.
- HandlerCorrect.MeaningPreserved takes one thing from the generator, the order of call arguments (`CallKeys`); `OrderExact`, `ArgumentsAreInputs` and `AgreeExact` say what it is.
- HandlerCorrect.MeaningPreserved and the other results about handlers ask that variables do not clash (`DistinctVariables`), which no check enforces: no result or parameter, after renaming, is called `err`, `_` or like a parameter of the Go function (`h` and `c`, in a subscriber `h`, `ctx` and `message`); none is called `total` where a sequence queries a list, or `tx` where one writes; and results, parameters, the text variable `xStr` of a converted path parameter, `req`, `opts` and `currentUser` are pairwise apart where the handler declares them.
- HandlerCompiles.CompilesExact: values that are empty or start with a dot, and parameters whose Go name is empty or has a dot, are not covered (`NonEmptyValues`, `Plain`).
- HandlerCompiles.CompilesExact: the older positional `args` of a sequence, which the parser no longer fills, are not covered (`WellShaped`).
- HandlerGen.Tracker.BuildTemplateData: messages, arguments and statuses are not part of its result here; the templates take them from the sequence.
- HandlerAtomicity.AllOrNothing: a write placed after the first @response runs on a finished transaction and is never stored.
- CallAgreement.AgreeExact: speaks about the usage an interface method is derived from; other usages of the same method may name other inputs.
- CallOrder.BuildCallKeys: with several query-valued keys and no Params the code keeps the one iterated last; the model fixes the greatest.
- HandlerGen.CollectRequestParams: field types come from an arbitrary lookup.
- Interval.ScanIntervalComponents: pointers to accumulators are in and out values; error texts are not modelled.
- RefreshStore.MatchClaims: values are compared as canonical JSON texts; the code compares decoded numbers, so integers beyond 2^53 that round to the same float64 match there although their texts differ, and a sweep can revoke rows of another user.
- RefreshStore.MemoryRefreshStore.Consume: whether a row is revoked is modelled, the time of revocation is not; the lock makes each operation one step; JSON values are canonical texts.
- Rotation.RefreshRotate: signing, verification and the clock are parameters; the memory store is the only store, and its Create cannot fail.
- LineGrammar.ParserInvertsGrammar: strings are sequences of characters rather than bytes; where the Go code would slice out of range the model returns `OutOfRange`.
- LineParser.ParseComments: moving `@subscribe` from the sequences to the function's metadata is not modelled.
- DdlReader.ParseDDLTables: works on classified lines; `DdlText` classifies the text, with the Go type of a column and the foreign key of a line as parameters, and upper case for ASCII only.
- SnakeCase.ToSnakeCase: texts that are not valid UTF-8; the result is a sequence of bytes.
- File walking, Go and SQL parsing by libraries, YAML, JWT, hashing, JSON encoding, command-line output.
- The symbol-table validations, the other runtime packages (cache, session, mail, storage, queue, pagination) and the archived `v1/` tree.
