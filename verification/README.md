# secure-spends-pro: the decision logic of its pages and its coach function

This Dafny project models the small deterministic parts of the secure-spends-pro
personal-finance web app and proves properties about them. It covers the React
pages and the Supabase edge function that carry real logic.

- **Financial coach page.** Sending a chat message, and reading the assistant's
  streamed answer. The answer arrives as chunks of text; the page splits the
  buffered text on `\n`, drops a trailing `\r`, skips comments, blank lines and
  non-`data: ` lines, stops at `[DONE]`, appends every non-empty delta to the
  last message, and puts a line whose JSON does not parse back into the buffer.
  This is a simplified subset of the event-stream parsing of the WHATWG HTML
  Living Standard, sections 9.2.5 and 9.2.6. The model follows the page's own
  rules, not the standard's.
- **Financial coach edge function.** The CORS preflight, the presence check on
  the `Authorization` header, the zod schema for the message list (1 to 50
  messages, role `user` or `assistant`, content of 1 to 10000 UTF-16 units),
  the message sent to the AI gateway, and the mapping from the gateway's status
  to the response status.
- **Learning quiz.** The five state fields, the three handlers, and the
  invariants they keep.
- **Fraud detector.** The additive risk score, capped at 100. Its base is the
  random part, so the model takes it as a parameter in 0..99. Also the
  low/medium/high bands, the warnings and recommendations, and the colour
  classes.
- **Transaction history.** The case-insensitive search combined with the type
  filter, the credit and debit totals and the net balance, and the status
  classes.
- **QR scanner.** Extraction of the payee (`pa=`) and the amount (`am=`) from
  a `upi://pay?` link. The regular expressions are modelled under ECMAScript
  `match` semantics: the leftmost match, with greedy `.*`. Also the URL and
  UPI classifiers, the open-link guard and the add-to-expense handler.
- **App scanner.** The URL schema, the state changes around the call to the
  analysis function, and the safety colour bands.
- **Profile page.** Single-field edits, investment flag toggles, the mapping
  from the stored row to the form and from the form to the save payload, the
  avatar initials, and the camelCase label transform.

A handler that updates React state is a method of a class whose fields are
that state. A handler with an `await` is split at the `await` into two methods:

- `Send`/`Receive`, `ScanApp`/`ScanFinished` and `Save`/`SaveFinished`: the
  second method takes the awaited outcome as a parameter;
- `CheckUser`: the awaited user and profile are both parameters.

The chunk loop of `streamChat` is `CoachPage.ReadStream`, with its inner line
loop `CoachPage.DrainLines`. Both are proved equal to the pure `ChatStream.Feed`.
`ChatStream.FeedMatchesRun` then proves that `Feed` gives the same result as a
reference reading that never sees chunk boundaries: split all the text into
lines, classify each line, and run the lines in order.

Parameters and oracles stand in for code this model does not see:

- `JSON.parse` of a data payload is `ChatStream.Parser`;
- the wording of zod's issues is `CoachFunction.IssueText`;
- zod's `.url()` check is `isValidUrl`;
- the AI gateway is `CoachFunction.Gateway`;
- `Math.random` is the `base` parameter;
- Supabase's auth user and profile row are method parameters.

Files: `wrappers.dfy` (Option, Result), `js_string.dfy` (the JavaScript string
built-ins the pages use), `chat_stream.dfy`, `financial_coach.dfy`,
`coach_function.dfy`, `learn.dfy`, `fraud_detector.dfy`,
`transaction_history.dfy`, `qr_scanner.dfy`, `app_scanner.dfy`, `profile.dfy`.

## Model

| member | source | states |
|---|---|---|
| JsString.ContainsIff | src/pages/TransactionHistory.tsx:108-110 | `includes` holds exactly when the pattern occurs at some index |
| JsString.IndexOf | src/pages/FinancialCoach.tsx:84 | `indexOf` of a character: -1 exactly when it is absent, otherwise its first occurrence |
| JsString.TrimEmptyIff | src/pages/FinancialCoach.tsx:89 | a string trims to "" exactly when every character is whitespace |
| JsString.TrimAppendWhitespace | src/pages/FinancialCoach.tsx:88-89 | trailing whitespace (such as a `\r`) does not change the trimmed string |
| JsString.ToLower | src/pages/TransactionHistory.tsx:108 | `toLowerCase` keeps the length and maps each character (ASCII letters) |
| JsString.ToUpper | src/pages/Profile.tsx:119 | `toUpperCase` keeps the length and maps each character (ASCII letters) |
| JsString.Utf16Length | supabase/functions/financial-coach/index.ts:12 | a string's length in UTF-16 units lies between its code-point count and twice that |
| ChatStream.StripCR | src/pages/FinancialCoach.tsx:88 | the line loses exactly one trailing `\r`, or is unchanged |
| ChatStream.Classify | src/pages/FinancialCoach.tsx:89-108 | a line yields a delta only with non-empty text |
| ChatStream.CrLfAsLf | src/pages/FinancialCoach.tsx:88 | a line ending in `\r\n` is interpreted as the same line ending in `\n` |
| ChatStream.SplitLine | src/pages/FinancialCoach.tsx:84-86 | a split happens exactly when there is a `\n`; it removes the text up to and including the first `\n` |
| ChatStream.CompleteLinesAppend | src/pages/FinancialCoach.tsx:81-86 | more text completes the pending line and adds lines after the earlier ones; the unfinished tail stays buffered |
| ChatStream.IgnoredLineIrrelevant | src/pages/FinancialCoach.tsx:89-90 | comment, blank and non-`data: ` lines change nothing |
| ChatStream.StopLineCutsRest | src/pages/FinancialCoach.tsx:78-96 | after `[DONE]` nothing more is processed and the reading has stopped |
| ChatStream.RunContent | src/pages/FinancialCoach.tsx:100-106 | the content is the in-order concatenation of the deltas before the first stop |
| ChatStream.UnparsableLinePutBack | src/pages/FinancialCoach.tsx:109-111 | an unparsable line minus its `\r`, plus `\n`, goes back in front of the rest of the buffer, and the buffer stays stalled |
| ChatStream.Drain | src/pages/FinancialCoach.tsx:83-113 | the inner loop only appends to the content, never grows the buffer, and stops only when done, out of complete lines, or at an unparsable first line |
| ChatStream.Feed | src/pages/FinancialCoach.tsx:78-114 | the outer loop only appends to the content, stops at once when done, and after any chunk is done, out of complete lines or stalled |
| ChatStream.FeedMatchesRun | src/pages/FinancialCoach.tsx:71-114 | chunk-by-chunk reading gives the content, the done flag and the buffer of the reference reading over the whole text |
| ChatStream.ChunkingIrrelevant | src/pages/FinancialCoach.tsx:78-114 | two chunkings of the same text give the same content and the same done flag |
| FinancialCoach.FailureToast | src/pages/FinancialCoach.tsx:44-63 | a destructive toast whose title is chosen by status 429, 402 or any other |
| FinancialCoach.AfterResponse | src/pages/FinancialCoach.tsx:44-76 | earlier messages are kept; one assistant message is added exactly for an ok response with a body |
| FinancialCoach.CoachPage.constructor | src/pages/FinancialCoach.tsx:15-22 | the greeting alone, an empty input, not loading |
| FinancialCoach.CoachPage.Type | src/pages/FinancialCoach.tsx:21 | the input holds the typed text |
| FinancialCoach.CoachPage.Send | src/pages/FinancialCoach.tsx:117-123 | a no-op for a blank input or while loading; otherwise one user message with the trimmed text, input cleared, loading |
| FinancialCoach.CoachPage.Receive | src/pages/FinancialCoach.tsx:44-131 | messages follow AfterResponse, a non-ok status raises its toast, loading ends |
| FinancialCoach.CoachPage.ReadStream | src/pages/FinancialCoach.tsx:69-114 | the assistant message is appended and ends with the content of Feed over the chunks; earlier messages are unchanged |
| FinancialCoach.CoachPage.DrainLines | src/pages/FinancialCoach.tsx:83-113 | the inner loop leaves buffer, content and done flag as Drain does; only the last message is rewritten |
| CoachFunction.RoleIssues | supabase/functions/financial-coach/index.ts:11 | no issue exactly when the role is "user" or "assistant" |
| CoachFunction.ContentIssues | supabase/functions/financial-coach/index.ts:12 | no issue exactly when the content is a string of 1..10000 UTF-16 units |
| CoachFunction.ItemsIssuesNone | supabase/functions/financial-coach/index.ts:10-16 | the items give no issue exactly when every item is a valid message |
| CoachFunction.ToMessages | supabase/functions/financial-coach/index.ts:46 | the validated messages are the items, one for one and in order |
| CoachFunction.Validate | supabase/functions/financial-coach/index.ts:35 | a failure carries at least one issue |
| CoachFunction.ValidateAccepts | supabase/functions/financial-coach/index.ts:10-35 | a body is accepted exactly when `messages` is an array of 1..50 valid messages, and the result is those messages |
| CoachFunction.TooManyMessagesFirst | supabase/functions/financial-coach/index.ts:16 | more than 50 messages: the size issue comes first, then the item issues |
| CoachFunction.EmptyConversation | supabase/functions/financial-coach/index.ts:16 | an empty message array gets the single too-small issue |
| CoachFunction.FirstMessage | supabase/functions/financial-coach/index.ts:38 | the first issue's text, or "Invalid message format" when there is none or it is empty |
| CoachFunction.Forwarded | supabase/functions/financial-coach/index.ts:57-81 | the system message, then the validated messages in order |
| CoachFunction.Relay | supabase/functions/financial-coach/index.ts:86-116 | a relayed stream is sent as an event stream, an error as JSON |
| CoachFunction.Handle | supabase/functions/financial-coach/index.ts:19-117 | the only statuses are 200, 400, 401, 402, 429 and 500, and 200 exactly for the preflight and a relayed stream |
| CoachFunction.ContentTypeKeepsCors | supabase/functions/financial-coach/index.ts:4-29 | adding the content type keeps both CORS headers |
| CoachFunction.CorsEverywhere | supabase/functions/financial-coach/index.ts:4-116 | every response carries both CORS headers; a response derives its headers from its content type, so this holds by construction once adding `Content-Type` keeps them |
| CoachFunction.ContentTypes | supabase/functions/financial-coach/index.ts:20-109 | no content type exactly for a preflight; event stream exactly when relaying; JSON exactly for errors |
| CoachFunction.PreflightUnchecked | supabase/functions/financial-coach/index.ts:20 | OPTIONS gets the bare CORS response, whatever the request holds |
| CoachFunction.UnauthorizedIff | supabase/functions/financial-coach/index.ts:24-31 | 401 exactly when the header is absent or empty |
| CoachFunction.AnyTokenPasses | supabase/functions/financial-coach/index.ts:24-25 | only the presence of the header matters, not its value |
| CoachFunction.RejectedBody | supabase/functions/financial-coach/index.ts:37-44 | a body breaking the schema gets 400 with the first issue's message |
| CoachFunction.AcceptedForwarded | supabase/functions/financial-coach/index.ts:46-109 | an accepted body goes to the gateway behind the system message, and the gateway's answer decides the response |
| CoachFunction.RelayStatus | supabase/functions/financial-coach/index.ts:86-116 | ok relays with 200; 429 and 402 keep their status; any other status gives 500 with "AI gateway error", or with the message thrown by reading the answer's text; a failed call gives 500 with its thrown message |
| Learn.QuestionsWellFormed | src/pages/Learn.tsx:15-49 | three questions, each with four options and a correct index among them |
| Learn.InitialInv | src/pages/Learn.tsx:52-56 | the initial state satisfies the invariant |
| Learn.Select | src/pages/Learn.tsx:58-71 | a no-op while the explanation shows; otherwise the answer is recorded, and a correct answer adds 1 to the score and 10 to the coins; the invariant is kept |
| Learn.Next | src/pages/Learn.tsx:73-81 | advances and clears the answer before the last question; on the last it changes nothing and reports score + 1 of 3 |
| Learn.Reset | src/pages/Learn.tsx:83-88 | back to the first question with score 0, keeping the coins |
| Learn.Apply | src/pages/Learn.tsx:58-88 | the current question stays within the questions |
| Learn.Play | src/pages/Learn.tsx:58-88 | any sequence of handlers keeps the current question within the questions |
| Learn.PlayInv | src/pages/Learn.tsx:58-88 | any sequence of handlers keeps the invariant: answer shown iff selected, score at most the questions scored, coins at least ten times the score |
| Learn.SessionInv | src/pages/Learn.tsx:52-88 | every reachable state satisfies the invariant |
| Learn.CoinsNeverDecrease | src/pages/Learn.tsx:65-88 | no sequence of handlers lowers the coins |
| Learn.NextOfferedAdvances | src/pages/Learn.tsx:74-77 | when the Next button is offered, Next advances one question |
| Learn.AnswerLastCompletes | src/pages/Learn.tsx:58-91 | answering the last question completes the quiz and offers only Start Over |
| Learn.LearnPage.constructor | src/pages/Learn.tsx:52-56 | the initial state |
| Learn.LearnPage.HandleAnswerSelect | src/pages/Learn.tsx:58-71 | the fields change as Select says |
| Learn.LearnPage.HandleNextQuestion | src/pages/Learn.tsx:73-81 | the fields change as Next says |
| Learn.LearnPage.ResetQuiz | src/pages/Learn.tsx:83-88 | the fields change as Reset says |
| Learn.LearnPage.IsComplete | src/pages/Learn.tsx:91 | complete exactly on the last question with the explanation shown |
| FraudDetector.FactorsOf | src/pages/FraudDetector.tsx:39-52 | the three factors: amount above 10000; id containing "random" or "unknown"; amount a multiple of 100 above 5000 |
| FraudDetector.RiskScore | src/pages/FraudDetector.tsx:34-55 | the raw score capped at 100, never below the base |
| FraudDetector.Band | src/pages/FraudDetector.tsx:57-72 | low iff below 40, medium iff 40..69, high iff 70 or more |
| FraudDetector.Triggered | src/pages/FraudDetector.tsx:39-52 | only triggered warnings are listed |
| FraudDetector.WarningsPerFactor | src/pages/FraudDetector.tsx:39-52 | one warning per triggered factor, each present iff its factor is on, large-amount first and round-number last |
| FraudDetector.WarningsSpelledOut | src/pages/FraudDetector.tsx:39-52 | the warnings are the triggered ones in the order large-amount, suspicious-id, round-number |
| FraudDetector.Recommendations | src/pages/FraudDetector.tsx:58-72 | two recommendations for low risk, three otherwise |
| FraudDetector.Assess | src/pages/FraudDetector.tsx:33-81 | the score lies between the base and 100, the level is its band, and the recommendation count fits the level |
| FraudDetector.MoreFactorsMoreRisk | src/pages/FraudDetector.tsx:39-72 | turning on more factors never lowers the score or the level |
| FraudDetector.BandMonotone | src/pages/FraudDetector.tsx:57-72 | a higher score never gets a lower level |
| FraudDetector.SuspiciousFromForty | src/pages/FraudDetector.tsx:45-72 | an id containing "unknown" with a base of 40 or more is high risk |
| FraudDetector.AddFactors | src/pages/FraudDetector.tsx:34-52 | the three conditional `+=`/`push` steps compute the raw score and the warnings |
| FraudDetector.Recommend | src/pages/FraudDetector.tsx:57-72 | the pushes compute the band and its recommendations |
| FraudDetector.ComputeResult | src/pages/FraudDetector.tsx:33-81 | the imperative computation gives Assess's result |
| FraudDetector.RiskColor | src/pages/FraudDetector.tsx:85-96 | one text class per level name, the muted class for any other string |
| FraudDetector.RiskBgColor | src/pages/FraudDetector.tsx:98-109 | one background class per level name, the muted class for any other string |
| FraudDetector.ColorsAgree | src/pages/FraudDetector.tsx:85-109 | a computed level never gets the fallback, and text and background agree |
| FraudDetector.FraudPage.constructor | src/pages/FraudDetector.tsx:18-21 | empty fields, no result, not analyzing |
| FraudDetector.FraudPage.SetFields | src/pages/FraudDetector.tsx:18-19 | the fields hold the typed text |
| FraudDetector.FraudPage.AnalyzeTransaction | src/pages/FraudDetector.tsx:23-29 | an empty id or amount gives the error and no job; otherwise analysis starts |
| FraudDetector.FraudPage.Complete | src/pages/FraudDetector.tsx:33-83 | the result is Assess's and analysis ends |
| TransactionHistory.Filtered | src/pages/TransactionHistory.tsx:107-115 | a transaction is kept exactly when it matches the search and the type filter |
| TransactionHistory.FilteredIsSublist | src/pages/TransactionHistory.tsx:107 | the filtered list is an order-preserving sub-list |
| TransactionHistory.FilteredCounts | src/pages/TransactionHistory.tsx:107-115 | a kept transaction appears as often as in the input, a dropped one not at all |
| TransactionHistory.EmptyQueryMatches | src/pages/TransactionHistory.tsx:108 | every transaction matches the empty query |
| TransactionHistory.EmptyQueryKeepsAll | src/pages/TransactionHistory.tsx:108-112 | an empty query with "all" keeps every transaction |
| TransactionHistory.TypeFilterKeepsType | src/pages/TransactionHistory.tsx:112 | a type filter keeps only that type |
| TransactionHistory.UnknownFilterKeepsNothing | src/pages/TransactionHistory.tsx:112 | a filter that is not "all", "credit" or "debit" keeps nothing |
| TransactionHistory.NetIsSignedSum | src/pages/TransactionHistory.tsx:117-193 | the net balance shown, `totalCredit - totalDebit`, equals one pass that adds each credit and subtracts each debit |
| TransactionHistory.NetAppend | src/pages/TransactionHistory.tsx:117-193 | the net balance of two lists joined is the sum of their net balances |
| TransactionHistory.CreditPlusDebit | src/pages/TransactionHistory.tsx:117-123 | credits plus debits are the sum of all amounts |
| TransactionHistory.TotalOfAppend | src/pages/TransactionHistory.tsx:117-123 | the totals are additive over concatenation |
| TransactionHistory.SampleTotals | src/pages/TransactionHistory.tsx:27-123 | the sample data totals 7000 in, 9450 out, net -2450 |
| TransactionHistory.NetClass | src/pages/TransactionHistory.tsx:192 | the success class iff the balance is not negative |
| TransactionHistory.StatusColor | src/pages/TransactionHistory.tsx:125-136 | one class per status, the muted class for any other string |
| TransactionHistory.StatusColorsDistinct | src/pages/TransactionHistory.tsx:125-136 | the three statuses get distinct classes, none of them the fallback |
| QRScanner.LineEnd | src/components/QRScanner.tsx:114 | `.*` can reach up to the first line terminator |
| QRScanner.LastPayee | src/components/QRScanner.tsx:114 | the last `pa=` followed by a non-`&` character within a range |
| QRScanner.FirstPayMatch | src/components/QRScanner.tsx:114 | the leftmost match of the payee regex, with the greedy (latest) `pa=` |
| QRScanner.PayMatchEnds | src/components/QRScanner.tsx:114 | a match's `pa=` lies on the line of its `upi://pay?` |
| QRScanner.FirstPayMatchSelected | src/components/QRScanner.tsx:114 | the search finds exactly the match ECMAScript's `match` selects |
| QRScanner.AmpersandEnd | src/components/QRScanner.tsx:114 | `[^&]+` extends up to the next `&` |
| QRScanner.UpiId | src/components/QRScanner.tsx:114-117 | no match: the whole text; a match: the capture, non-empty and without `&` |
| QRScanner.NoPayLinkWholeText | src/components/QRScanner.tsx:117 | without `upi://pay?` the whole text is the payee |
| QRScanner.LaterPayeeWins | src/components/QRScanner.tsx:114 | of two `pa=` after the selected link start, the later one is used |
| QRScanner.FirstAmountMatch | src/components/QRScanner.tsx:115 | the first `am=` followed by a digit or dot |
| QRScanner.AmountRunEnd | src/components/QRScanner.tsx:115 | `[0-9.]+` extends up to the first other character |
| QRScanner.AmountText | src/components/QRScanner.tsx:115-118 | no text iff no match; otherwise the capture of the first match, non-empty digits and dots |
| QRScanner.DigitRunEnd | src/components/QRScanner.tsx:118 | the end of the digit run `parseFloat` reads |
| QRScanner.Pow10 | src/components/QRScanner.tsx:118 | a power of ten is at least 1 |
| QRScanner.ParseDecimal | src/components/QRScanner.tsx:118 | NaN exactly when the text does not start with a digit or a dot followed by a digit; never negative |
| QRScanner.NatStringValue | src/components/QRScanner.tsx:118 | the digits of a number read back as that number |
| QRScanner.ParseNatString | src/components/QRScanner.tsx:118 | parsing a whole number's digits gives the number |
| QRScanner.DigitRunAll | src/components/QRScanner.tsx:118 | an all-digit text is one digit run |
| QRScanner.ExpenseAmount | src/components/QRScanner.tsx:115-118 | 0 without a match; NaN only when the amount text starts with a dot; never negative |
| QRScanner.AmountTextOfField | src/components/QRScanner.tsx:115 | the digits after the first matching `am=` are the amount text |
| QRScanner.AmountOfField | src/components/QRScanner.tsx:115-118 | a whole number after the first `am=` is the amount recorded |
| QRScanner.AmountRunPast | src/components/QRScanner.tsx:115 | the amount run stops at the end of the digits |
| QRScanner.UpiLinkClassified | src/components/QRScanner.tsx:135-136 | a `upi://` link is UPI data and not a URL |
| QRScanner.PayMatchIsUpi | src/components/QRScanner.tsx:114-136 | data with a payee match is classed as UPI |
| QRScanner.OpenLink | src/components/QRScanner.tsx:98-135 | a tab opens exactly for http(s) data, on that data; otherwise the invalid-URL toast |
| QRScanner.ScannerPanel.constructor | src/components/QRScanner.tsx:13-15 | no scanned data, nothing recorded |
| QRScanner.ScannerPanel.Scanned | src/components/QRScanner.tsx:54-55 | the decoded text is kept |
| QRScanner.ScannerPanel.Close | src/components/QRScanner.tsx:81-195 | the scanned data is cleared |
| QRScanner.ScannerPanel.AddToExpense | src/components/QRScanner.tsx:110-127 | with data and a callback, one expense with the extracted amount and payee is recorded and the data cleared; otherwise nothing changes |
| AppScanner.UrlIssues | src/pages/AppScanner.tsx:20-28 | at most three issues; none exactly when all three rules pass |
| AppScanner.UrlIssuesListed | src/pages/AppScanner.tsx:20-28 | each failing rule contributes its own message, and only those |
| AppScanner.ValidationError | src/pages/AppScanner.tsx:38-41 | no error exactly when the URL passes; an error is one of the issues |
| AppScanner.FallbackNeverShown | src/pages/AppScanner.tsx:41 | the "Invalid URL" fallback is never the message |
| AppScanner.SchemeChecked | src/pages/AppScanner.tsx:24-27 | a URL without a web scheme is always refused |
| AppScanner.ScannerPage.constructor | src/pages/AppScanner.tsx:31-33 | empty URL, not scanning, no result |
| AppScanner.ScannerPage.SetUrl | src/pages/AppScanner.tsx:31 | the URL holds the typed text |
| AppScanner.ScannerPage.ScanApp | src/pages/AppScanner.tsx:36-56 | an invalid trimmed URL raises a toast and changes nothing else; a valid one clears the result, starts scanning and requests the untrimmed URL |
| AppScanner.ScannerPage.ScanFinished | src/pages/AppScanner.tsx:58-74 | success stores the returned data as given (none when the call returned none); failure keeps the old result with the error's message or the fallback; scanning always ends |
| AppScanner.RequestedUrlPassed | src/pages/AppScanner.tsx:38-50 | a requested URL's trimmed form has a web scheme and at most 2048 characters |
| AppScanner.SafetyBand | src/pages/AppScanner.tsx:77-81 | green iff 80 or more, yellow iff 50 to below 80, red iff below 50 |
| AppScanner.SafetyColor | src/pages/AppScanner.tsx:77-81 | the text class by the same thresholds |
| AppScanner.SafetyBgColor | src/pages/AppScanner.tsx:83-87 | the background class by the same thresholds |
| AppScanner.SafetyColorsAgree | src/pages/AppScanner.tsx:77-87 | text and background always show the same band |
| AppScanner.SafetyBandMonotone | src/pages/AppScanner.tsx:77-81 | a higher score never gets a worse band |
| Profile.SetField | src/pages/Profile.tsx:81-84 | the named field takes the value; all others are unchanged |
| Profile.FormExtensional | src/pages/Profile.tsx:19-28 | two forms with the same fields are equal |
| Profile.SetFieldTwice | src/pages/Profile.tsx:81-84 | the second edit of a field overrides the first |
| Profile.SetFieldSame | src/pages/Profile.tsx:81-84 | writing a field's own value changes nothing |
| Profile.SetFieldsCommute | src/pages/Profile.tsx:81-84 | edits of different fields commute |
| Profile.Toggle | src/pages/Profile.tsx:86-88 | exactly the one flag is negated |
| Profile.ToggleTwice | src/pages/Profile.tsx:86-88 | toggling a present key twice restores the map |
| Profile.ToggleTwiceAbsent | src/pages/Profile.tsx:86-88 | toggling an absent key twice leaves it false |
| Profile.OrEmpty | src/pages/Profile.tsx:60-67 | a column's value, or "" when absent |
| Profile.FromRow | src/pages/Profile.tsx:58-68 | each field is its column or ""; the email comes from the auth user |
| Profile.SavePayload | src/pages/Profile.tsx:96-107 | the user's id, the investments, and a date of birth that is null exactly when empty |
| Profile.EmailNeverSaved | src/pages/Profile.tsx:97-107 | the payload does not depend on the email field |
| Profile.SaveLoadRoundTrip | src/pages/Profile.tsx:58-107 | loading a saved profile gives back the form, with the auth email |
| Profile.Initials | src/pages/Profile.tsx:118-120 | the first two characters upper-cased, or the whole string if shorter |
| Profile.AvatarText | src/pages/Profile.tsx:140 | one or two characters, "??" without an email |
| Profile.SpaceBeforeCaps | src/pages/Profile.tsx:266 | inserting spaces keeps every character and adds only spaces |
| Profile.SpacingUndone | src/pages/Profile.tsx:266 | removing spaces undoes the insertion |
| Profile.CamelCaseLabel | src/pages/Profile.tsx:266 | for a camelCase key the label is the spaced key and removing spaces gives the key back |
| Profile.SpaceBeforeCapsAppend | src/pages/Profile.tsx:266 | the insertion works piece by piece |
| Profile.TwoWordLabel | src/pages/Profile.tsx:266 | a two-word camelCase key gets one space before its capital |
| Profile.OneWordLabel | src/pages/Profile.tsx:266 | a lower-case key is its own label |
| Profile.InvestmentLabels | src/pages/Profile.tsx:30-266 | the six initial keys are stocks, mutualFunds, crypto, realEstate, gold and others, labelled "stocks", "mutual Funds", "crypto", "real Estate", "gold" and "others" |
| Profile.ProfilePage.constructor | src/pages/Profile.tsx:16-37 | not loading, no user, the empty form, all six flags false |
| Profile.ProfilePage.CheckUser | src/pages/Profile.tsx:43-79 | no user: navigate home, load nothing; a stored profile sets every field, plus the flags when stored; without one only the email changes |
| Profile.ProfilePage.InputChange | src/pages/Profile.tsx:81-84 | the form follows SetField |
| Profile.ProfilePage.PictureLoaded | src/pages/Profile.tsx:160-162 | the picture field holds the data URL |
| Profile.ProfilePage.InvestmentChange | src/pages/Profile.tsx:86-88 | the flags follow Toggle |
| Profile.ProfilePage.Save | src/pages/Profile.tsx:90-107 | no user: a no-op; otherwise the payload of SavePayload is sent and loading starts |
| Profile.ProfilePage.SaveFinished | src/pages/Profile.tsx:109-115 | the success notice, or the error's message or the fallback; loading ends |

## Left out

- Network, auth and database I/O are left out: `fetch`, `reader.read`, `TextDecoder`, the Supabase client calls and the gateway call. The stream is a given sequence of decoded chunks, and every awaited result is a method parameter.
- `JSON.parse` and the `choices[0].delta.content` lookup are one oracle. It answers "malformed" or an optional delta string.
- zod's `.url()` check and the wording of zod's default issue messages are oracles. The issue order and the custom messages are modelled.
- `Deno.env` is the `apiKey` parameter of `CoachFunction.Handle`, and the system prompt's text is its `system` parameter. The model name is the constant `CoachFunction.GatewayModel`. A missing API key is modelled as a thrown error.
- `Math.random` and the `setTimeout` delay of the fraud detector are left out. The random part is the `base` parameter in 0..99.
- FraudDetector.FactorsOf: `parseFloat` of the amount is an `Option<real>` parameter, with NaN as `None`. Float precision is not modelled, and neither is ±Infinity (`parseFloat("1e400")`).
- QRScanner.ParseDecimal reads only a leading run of digits with an optional fractional part. A sign, an exponent, leading whitespace and `Infinity` are not modelled, because the `[0-9.]+` capture cannot hold them. Float rounding is not modelled.
- The amount in the add-to-expense toast text is left out (number-to-string formatting).
- Safety scores are `real`; NaN scores are not modelled.
- TransactionHistory.Transaction: amounts are whole numbers, as in the sample data, and the totals are exact; floating-point rounding of the `reduce` sums is not modelled.
- `toLowerCase`/`toUpperCase` map ASCII letters only.
- Profile.Initials takes the first two code points, where `substring` takes two UTF-16 units.
- The camera and the clipboard are left out: `startScanning`, `stopScanner`, `copyToClipboard` and their toasts.
- The QR scanner's toasts are left out. In the profile page, `navigate("/")` is the `navigatedHome` flag and the toasts are the `notices` list.
- React batching and stale closures are left out. Each handler is one sequential state change.
- The order of the investment checkboxes is left out (`Object.entries` order). So is the CSS `capitalize` applied to the labels.
- The analyze-app edge function is left out. It is a pass-through to an external API.
- Learn's completion toast on the last question exists in the model (`Learn.Next`). `Learn.NextOfferedAdvances` shows the page never offers Next there, so the toast cannot be reached from the page.
- When a data line's JSON does not parse, the page puts it back and leaves the inner loop. Each later chunk re-reads the same line first and fails again, so nothing after it is ever shown. The model keeps this behaviour (`ChatStream.UnparsableLinePutBack`, `ChatStream.StalledBuffer`). It is not listed as a finding, because a malformed complete line cannot be told apart from one the authors meant to wait on.
