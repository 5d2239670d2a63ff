# W3 website behaviour, modelled in Dafny

This project models the interactive parts of the W3 AI Solutions marketing
site, a React single-page app. It covers:

- the two four-section research intake wizards: the database-insert variant
  and the backend-POST variant;
- the AI-receptionist agency dashboard: the ROI, MRR and pipeline figures,
  the industry presets and the numeric inputs;
- the voice-agent demo: the call button and its SDK events, and the
  "build my demo" form with its URL normaliser;
- the speed-to-lead call widget;
- the industry audio picker and its `m:ss` clock;
- the FAQ accordion;
- five small savings calculators on the demo pages.

Component state that the handlers update in place becomes a `class`.
Each handler becomes a `method` with a `modifies` clause, and each
class's `Valid()` is the invariant every handler keeps. The derived figures
and projections are pure `function`s, and the properties the site relies on
are `lemma`s about them.

Three support modules model the JavaScript built-ins these components use:

- `JsStrings`: `trim`, `split`, `join` and `filter`;
- `Decimal`: `toString`, `padStart` and number parsing for whole numbers;
- `Optional`: an `Option` type.

Network calls, the voice SDK and timers are outside the model. Their
results enter as parameters: an insert result, a POST outcome, a webhook
answer, an SDK start outcome. Their completions are separate methods:
`FinishSubmit`, `FinishStart`, `WebhookSettled`, `TimerFired` and the SDK
event methods.

An `async` handler is split in two at its first `await`. The state between
the two halves can be seen: buttons that are not disabled can still be
pressed, and inputs can still be edited. A control the page disables or
does not render becomes a `requires` on the handler behind it.

## Model

| member | source | states |
|---|---|---|
| JsStrings.TrimStart | src/components/ResearchForm.tsx:143 | the result is a suffix of the input, the part removed is all whitespace, and the result does not start with whitespace |
| JsStrings.TrimEnd | src/components/ResearchForm.tsx:143 | the result is a prefix of the input, the part removed is all whitespace, and the result does not end with whitespace |
| JsStrings.Trim | src/components/ResearchForm.tsx:146 | the trimmed text is empty or neither starts nor ends with whitespace |
| JsStrings.TrimEmptyIffBlank | src/components/ResearchForm.tsx:143 | `s.trim() === ''` exactly when `s` consists only of whitespace |
| JsStrings.TrimIsInfix | src/components/ResearchForm.tsx:146 | a trimmed string is a contiguous slice of the original, with whitespace on both sides removed and none left at its ends |
| JsStrings.TrimKeepsCharacters | src/components/ResearchForm.tsx:144-146 | trimming never introduces a character, so a trimmed piece of a comma split has no comma |
| JsStrings.TrimIdempotent | src/components/ResearchForm.tsx:146 | trimming twice is trimming once |
| JsStrings.Split | src/components/ResearchForm.tsx:145 | `split(',')` always yields at least one piece and no piece contains the separator |
| JsStrings.Join | src/components/ResearchForm.tsx:145 | the inverse of `split` used to state its round trips: the first piece is a prefix of the joined text |
| JsStrings.JoinSplit | src/components/ResearchForm.tsx:145 | joining the pieces of a split with the separator rebuilds the original text |
| JsStrings.SplitWithoutSeparator | src/components/ResearchForm.tsx:145 | text without the separator splits into itself alone |
| JsStrings.SplitAfterPiece | src/components/ResearchForm.tsx:145 | a separator-free piece followed by the separator splits off as the first piece |
| JsStrings.SplitJoin | src/components/ResearchForm.tsx:145 | splitting a join of separator-free pieces gives the pieces back |
| JsStrings.Filter | src/components/ResearchForm.tsx:143 | `filter` keeps exactly the elements satisfying the test and never lengthens the list |
| JsStrings.FilterConcat | src/components/ResearchForm.tsx:143 | filtering distributes over concatenation |
| JsStrings.FilterSingle | src/components/ResearchForm.tsx:143 | a one-element list is kept whole when the element passes and dropped otherwise |
| JsStrings.FilterKeepsAll | src/components/ResearchForm.tsx:147 | a filter every element passes returns the list unchanged |
| JsStrings.TrimAll | src/components/ResearchForm.tsx:146 | `map(trim)` keeps the length and trims each element in place |
| JsStrings.TrimAllConcat | src/components/ResearchForm.tsx:146 | `map(trim)` distributes over concatenation |
| JsStrings.TrimAroundCharacter | src/components/ResearchForm.tsx:146 | a visible character, alone or between two spaces, is not blank and trims to itself |
| JsStrings.TrimAllOfTrimmed | src/components/ResearchForm.tsx:146 | mapping `trim` over already-trimmed strings changes nothing |
| Decimal.DigitChar | src/components/sections/InstantDemo.tsx:188 | the digit character has the given value |
| Decimal.NatToString | src/components/sections/InstantDemo.tsx:186-188 | `toString` of a non-negative integer is a non-empty digit string with no leading zero, one character long exactly below 10 |
| Decimal.IntToString | src/pages/dashboard/AIReceptionistDashboard.tsx:479 | the text shown in a number input is non-empty and starts with '-' exactly for a negative number |
| Decimal.NatRoundTrip | src/components/sections/InstantDemo.tsx:188 | reading the decimal text of a non-negative integer gives it back |
| Decimal.ParseInt | src/pages/dashboard/AIReceptionistDashboard.tsx:483 | only non-empty text is read, and a negative value only from text starting with '-'; `IntRoundTrip` states that it inverts `IntToString` |
| Decimal.IntRoundTrip | src/pages/dashboard/AIReceptionistDashboard.tsx:483 | reading the decimal text of any integer gives it back |
| Decimal.PadStart | src/components/sections/InstantDemo.tsx:188 | `padStart` reaches the width (or keeps a longer string), ends with the original and fills the front with the pad character |
| DiscoveryForm.Fields.Set | src/components/ResearchForm.tsx:77-82 | changing one text field sets it and leaves every other field and the proof-asset list unchanged |
| DiscoveryForm.SectionOf | src/components/ResearchForm.tsx:181-194 | every input belongs to one of the four sections |
| DiscoveryForm.ValidateSection | src/components/ResearchForm.tsx:92-113 | only sections 1..4 can validate; each section's required fields are in the definition, and `ValidityIsLocal` and `WhitespaceFillsRequiredFields` state their consequences |
| DiscoveryForm.ValidityIsLocal | src/components/ResearchForm.tsx:92-113 | editing a field of another section, or an optional field, never changes a section's validity |
| DiscoveryForm.ProofAssetsNeverMatter | src/components/ResearchForm.tsx:95-100 | the proof-asset URLs never affect validation |
| DiscoveryForm.UnknownSectionInvalid | src/components/ResearchForm.tsx:110-112 | a section index other than 1..4 never validates |
| DiscoveryForm.WhitespaceFillsRequiredFields | src/components/ResearchForm.tsx:95-100 | validation does not trim: a single space fills a required field |
| DiscoveryForm.KeptProofAssets | src/components/ResearchForm.tsx:143 | the submitted proof assets are exactly the entered ones that are not blank |
| DiscoveryForm.KeptProofAssetsConcat | src/components/ResearchForm.tsx:143 | the asset filter works entry by entry: it distributes over concatenation, so order and repeats are kept |
| DiscoveryForm.KeptProofAsset | src/components/ResearchForm.tsx:143 | one entry is kept, untrimmed, exactly when it is not blank |
| DiscoveryForm.TrimmedPieces | src/components/ResearchForm.tsx:144-146 | every trimmed piece of a comma split is trimmed and comma-free |
| DiscoveryForm.Phrases | src/components/ResearchForm.tsx:144-147 | every forbidden phrase submitted is non-empty, trimmed and comma-free |
| DiscoveryForm.PhrasesOfPiece | src/components/ResearchForm.tsx:144-147 | comma-free text gives no phrase when blank and its trimmed self otherwise |
| DiscoveryForm.PhrasesAfterPiece | src/components/ResearchForm.tsx:144-147 | text up to the first comma contributes its phrases ahead of those of the rest: nothing is lost or reordered |
| DiscoveryForm.EmptyPieceDropped | src/components/ResearchForm.tsx:144-147 | two commas in a row contribute no phrase |
| DiscoveryForm.LeadingCommaDropped | src/components/ResearchForm.tsx:144-147 | a leading comma contributes no phrase |
| DiscoveryForm.OneCharacterPhrase | src/components/ResearchForm.tsx:144-147 | a visible character other than a comma, alone or between spaces, is one phrase |
| DiscoveryForm.PhrasesExample | src/components/ResearchForm.tsx:144-147 | `"x,, y "` gives `["x", "y"]` for any visible characters x and y other than a comma |
| DiscoveryForm.NoPhrasesInEmptyText | src/components/ResearchForm.tsx:144-147 | an empty forbidden-phrases box submits no phrases |
| DiscoveryForm.PhrasesRoundTrip | src/components/ResearchForm.tsx:144-147 | a list of non-empty, trimmed, comma-free phrases typed comma-separated is submitted as exactly that list |
| DiscoveryForm.SubmissionData | src/components/ResearchForm.tsx:141-148 | the row inserted: the form spread with the assets and phrases replaced; `SubmissionFields` states what it holds |
| DiscoveryForm.SubmissionFields | src/components/ResearchForm.tsx:141-148 | the submission copies every text field but the phrases, its proof assets are `KeptProofAssets` of the entered ones (exactly those not blank) and its phrases are `Phrases` of the text (only non-empty, trimmed, comma-free phrases) |
| DiscoveryForm.SubmitAttempt | src/components/ResearchForm.tsx:129-148 | something is sent exactly when section 4 validates, and then it is the projected submission |
| DiscoveryForm.CopiedText | src/components/ResearchForm.tsx:142 | the spread `...formData` carries every text field except the replaced phrases unchanged |
| DiscoveryForm.HandshakeSucceeds | src/components/ResearchForm.tsx:152-168 | the try block completes when the insert succeeds and, with a backend configured, a first row exists and the trigger request does not throw |
| DiscoveryForm.Wizard.constructor | src/components/ResearchForm.tsx:47-75 | the wizard starts on section 1 with the initial fields, three empty proof-asset slots, idle and not submitting |
| DiscoveryForm.Wizard.HandleChange | src/components/ResearchForm.tsx:77-82 | an edit replaces one field of the current section and keeps the wizard invariant |
| DiscoveryForm.Wizard.HandleProofAssetChange | src/components/ResearchForm.tsx:85-89 | an edit replaces one proof-asset slot and nothing else |
| DiscoveryForm.Wizard.NextSection | src/components/ResearchForm.tsx:116-122 | the index moves to `min(current+1, 4)` exactly when the current section validates, otherwise stays |
| DiscoveryForm.Wizard.PrevSection | src/components/ResearchForm.tsx:124-126 | the index moves to `max(current-1, 1)` without validation |
| DiscoveryForm.Wizard.BeginSubmit | src/components/ResearchForm.tsx:129-148 | in any state, including with a submission in flight: sends what `SubmitAttempt` gives, is submitting when it was or something was sent, and changes neither the form, the index nor the status |
| DiscoveryForm.Wizard.FinishSubmit | src/components/ResearchForm.tsx:150-177 | a successful insert and trigger give success and reset the form and index; any failure gives error and keeps them; the trigger carries the first row's id; submitting ends even with another submission in flight |
| IntakeForm.Fields.Set | src/components/forms/ResearchForm.tsx:58-60 | updating one field sets it and leaves every other field and the service list unchanged |
| IntakeForm.SectionOf | src/components/forms/ResearchForm.tsx:209-500 | every input belongs to one of the four sections |
| IntakeForm.CanProceed | src/components/forms/ResearchForm.tsx:71-84 | the gate of each section, on untrimmed truthiness; `GateIsLocal`, `OnlyFirstCompetitorCounts` and `SectionOneScenario` state its consequences |
| IntakeForm.GateIsLocal | src/components/forms/ResearchForm.tsx:71-84 | editing a field of another section never changes whether a section may proceed |
| IntakeForm.OnlyFirstCompetitorCounts | src/components/forms/ResearchForm.tsx:77-78 | section 3 needs the first competitor: the second and third alone do not pass |
| IntakeForm.SectionOneScenario | src/components/forms/ResearchForm.tsx:73-74 | section 1 needs company, industry and services |
| IntakeForm.ToggleService | src/components/forms/ResearchForm.tsx:62-69 | toggling flips the service's membership, keeps every other service's, appends a new one at the end and keeps the list free of duplicates |
| IntakeForm.ToggleRemoves | src/components/forms/ResearchForm.tsx:62-69 | deselecting a service of a duplicate-free list removes it where it stands and keeps the others in order |
| IntakeForm.FilterDropsOne | src/components/forms/ResearchForm.tsx:65 | `filter(s => s !== service)` drops a single occurrence and keeps the rest in order |
| IntakeForm.FilterKeepsNoDuplicates | src/components/forms/ResearchForm.tsx:65 | removing entries keeps a duplicate-free list duplicate-free |
| IntakeForm.ToggleTwice | src/components/forms/ResearchForm.tsx:62-69 | toggling twice restores membership, and restores the list itself when the service was absent |
| IntakeForm.Competitors | src/components/forms/ResearchForm.tsx:97 | the competitor list is the non-empty competitor fields, in field order |
| IntakeForm.CompetitorScenarios | src/components/forms/ResearchForm.tsx:97 | empty fields are dropped and a single space is kept |
| IntakeForm.Payload.Text | src/components/forms/ResearchForm.tsx:91-107 | which payload key carries each text input; the competitor inputs alone have none of their own |
| IntakeForm.BuildPayload | src/components/forms/ResearchForm.tsx:91-107 | every text input but the competitors is passed unchanged under its backend key (`name`, `target_customers`, `dream_outcome`, ...), `competitors` is the filtered list and `ai_services` the selected services |
| IntakeForm.PayloadEditIsLocal | src/components/forms/ResearchForm.tsx:91-107 | editing one input changes no other input's payload value |
| IntakeForm.FailureMessage | src/components/forms/ResearchForm.tsx:119-128 | a non-ok response shows the fixed retry message, a thrown `Error` its own message, and any other thrown value the fallback |
| IntakeForm.Wizard.constructor | src/components/forms/ResearchForm.tsx:18-56 | the wizard starts on section 1 with the initial fields, no error, not submitted |
| IntakeForm.Wizard.UpdateField | src/components/forms/ResearchForm.tsx:58-60 | an edit replaces one field of the current section and keeps the wizard invariant |
| IntakeForm.Wizard.ToggleAIService | src/components/forms/ResearchForm.tsx:62-69 | a checkbox click toggles one offered service, keeping the list duplicate-free and the earlier gates passing |
| IntakeForm.Wizard.Back | src/components/forms/ResearchForm.tsx:502-511 | Back moves one section down from sections 2..4 |
| IntakeForm.Wizard.Continue | src/components/forms/ResearchForm.tsx:514-522 | Continue moves one section up from sections 1..3 when the gate passes |
| IntakeForm.Wizard.BeginSubmit | src/components/forms/ResearchForm.tsx:86-108 | submitting clears the error, marks the wizard submitting and posts the payload of the current fields |
| IntakeForm.Wizard.FinishSubmit | src/components/forms/ResearchForm.tsx:110-131 | an accepted POST marks the wizard submitted and calls `onSubmitSuccess` with the `job_id` read, possibly `undefined`; any failure records its message and calls nothing; fields are never reset; submitting ends |
| ReceptionistDashboard.PercentOf | src/pages/dashboard/AIReceptionistDashboard.tsx:123 | `Math.floor(x * (r / 100))` taken as the exact floor of `x*r/100`: the largest integer at most it |
| ReceptionistDashboard.PercentOfBounded | src/pages/dashboard/AIReceptionistDashboard.tsx:123 | a rate in 0..100 of a non-negative count lies between 0 and the count |
| ReceptionistDashboard.Roi | src/pages/dashboard/AIReceptionistDashboard.tsx:122-125 | the ROI figures; `RoiFacts` states them |
| ReceptionistDashboard.Mrr | src/pages/dashboard/AIReceptionistDashboard.tsx:134-140 | the MRR figures; `MrrFacts` states them |
| ReceptionistDashboard.Pipeline | src/pages/dashboard/AIReceptionistDashboard.tsx:150-155 | the funnel figures; `FunnelNarrows` states them |
| ReceptionistDashboard.RoiFacts | src/pages/dashboard/AIReceptionistDashboard.tsx:122-125 | 30 days a month; new customers are the floor of the converted calls and at most the calls; revenue is customers times transaction; the multiple is the floor of revenue over price, 0 when the price is not positive |
| ReceptionistDashboard.MrrFacts | src/pages/dashboard/AIReceptionistDashboard.tsx:134-140 | churned clients are among the current ones, so the projection keeps at least the new clients; ARR is twelve months; the progress bar never exceeds 100 and is full exactly at the $43,000 goal |
| ReceptionistDashboard.FunnelNarrows | src/pages/dashboard/AIReceptionistDashboard.tsx:150-155 | with rates in 0..100 each funnel stage is no larger than the one before, and each sale adds $497 of MRR |
| ReceptionistDashboard.ParseOrZeroFacts | src/pages/dashboard/AIReceptionistDashboard.tsx:483 | a typed number is stored as itself; an empty or non-numeric box is stored as 0 |
| ReceptionistDashboard.ParseOrZero | src/pages/dashboard/AIReceptionistDashboard.tsx:483 | the parsed number of whole-number text, or 0 when none is read; `ParseOrZeroFacts` states it |
| ReceptionistDashboard.Dashboard.constructor | src/pages/dashboard/AIReceptionistDashboard.tsx:115-158 | the dashboard starts on 'custom' with the default inputs and no open detail card |
| ReceptionistDashboard.Dashboard.HandleIndustryChange | src/pages/dashboard/AIReceptionistDashboard.tsx:160-168 | the selector always takes the value; a preset key also loads its calls, conversion and transaction; the monthly price and all other inputs are untouched |
| ReceptionistDashboard.Dashboard.ClickIndustryCard | src/pages/dashboard/AIReceptionistDashboard.tsx:380 | clicking the open card closes it; clicking another card opens it |
| ReceptionistDashboard.Dashboard.SetNumber | src/pages/dashboard/AIReceptionistDashboard.tsx:473-483 | an input change stores the parsed number, or 0, in that input and in no other |
| ReceptionistDashboard.Dashboard.SetCallsPerPost | src/pages/dashboard/AIReceptionistDashboard.tsx:343 | the calls-per-post input stores the value typed, in tenths |
| VoiceDemo.ConfigProblem | src/components/sections/VoiceDemo.tsx:89-108 | a call may start only with a key, a built SDK and an assistant id; a missing key is reported first, then a missing SDK |
| VoiceDemo.StatusLine | src/components/sections/VoiceDemo.tsx:220-228 | an error, when present, replaces the status text |
| VoiceDemo.VoiceCall.constructor | src/components/sections/VoiceDemo.tsx:39-42 | the widget starts idle, silent and without error |
| VoiceDemo.VoiceCall.ToggleCall | src/components/sections/VoiceDemo.tsx:87-125 | a configuration problem is shown and nothing starts; an active call is only asked to stop; otherwise the widget connects with the error cleared; never both active and connecting |
| VoiceDemo.VoiceCall.FinishStart | src/components/sections/VoiceDemo.tsx:125-131 | a failed start stops connecting and shows the error's message or the fallback |
| VoiceDemo.VoiceCall.OnCallStart | src/components/sections/VoiceDemo.tsx:48-53 | call start makes the call active, not connecting, with no error, showing "Listening..." |
| VoiceDemo.VoiceCall.OnCallEnd | src/components/sections/VoiceDemo.tsx:55-60 | call end makes the call inactive, not connecting, at volume 0 |
| VoiceDemo.VoiceCall.OnVolumeLevel | src/components/sections/VoiceDemo.tsx:62-64 | the volume event stores the level |
| VoiceDemo.VoiceCall.OnError | src/components/sections/VoiceDemo.tsx:66-71 | an SDK error ends the call and shows the microphone-permission message |
| VoiceDemo.NormalizeUrl | src/components/sections/VoiceDemo.tsx:278-280 | the result always starts with `http://` or `https://`; a URL that already does is unchanged; otherwise `https://` is put in front |
| VoiceDemo.NormalizeIdempotent | src/components/sections/VoiceDemo.tsx:278-280 | normalising twice is normalising once |
| VoiceDemo.NormalizeKeepsText | src/components/sections/VoiceDemo.tsx:278-280 | the text typed survives intact at the end of the normalised URL |
| VoiceDemo.NormalizeIsLiteral | src/components/sections/VoiceDemo.tsx:278-280 | text that does not start with a lower-case 'h' always gets the `https://` prefix: the scheme test is case-sensitive and does not trim |
| VoiceDemo.BuiltAssistant | src/components/sections/VoiceDemo.tsx:297 | a build succeeds exactly on status 'success' with a non-empty assistant id |
| VoiceDemo.BuildForm.constructor | src/components/sections/VoiceDemo.tsx:267-330 | the form starts with an enabled "Build My Demo" button |
| VoiceDemo.BuildForm.Submit | src/components/sections/VoiceDemo.tsx:268-293 | an empty URL does nothing; otherwise the normalised URL is sent and the button shows "Building..." disabled |
| VoiceDemo.BuildForm.FinishBuild | src/components/sections/VoiceDemo.tsx:295-311 | a built assistant sends the page to the demo template for that id; anything else alerts and restores the enabled button |
| SpeedToLead.AcceptsPhone | src/components/sections/SpeedToLead.tsx:17 | the number check passes exactly for ten or more characters |
| SpeedToLead.AcceptsPhoneExamples | src/components/sections/SpeedToLead.tsx:17 | ten letters pass and nine digits fail: characters are counted, not digits |
| SpeedToLead.Widget.constructor | src/components/sections/SpeedToLead.tsx:5-7 | the widget starts idle with an empty number and no message |
| SpeedToLead.Widget.SetPhone | src/components/sections/SpeedToLead.tsx:89 | typing stores the number in any state |
| SpeedToLead.Widget.HandleCall | src/components/sections/SpeedToLead.tsx:12-45 | a short number gives error with the validation message and sends nothing; a valid one gives calling with the message cleared, and posts the phone, the fixed source and the time when a webhook is configured |
| SpeedToLead.Widget.WebhookSettled | src/components/sections/SpeedToLead.tsx:29-51 | any response gives success; a thrown fetch gives error with the offline message |
| SpeedToLead.Widget.TimerFired | src/components/sections/SpeedToLead.tsx:42-44 | the simulation timer gives success |
| InstantDemo.FormatTime | src/components/sections/InstantDemo.tsx:185-189 | the clock is the whole minutes, then a colon, then two characters of seconds |
| InstantDemo.TwoDigitValue | src/components/sections/InstantDemo.tsx:188 | two digit characters are digits and read back as their two-digit number |
| InstantDemo.SecondsDigits | src/components/sections/InstantDemo.tsx:187-188 | the padded seconds below 60 are the tens digit then the units digit |
| InstantDemo.SecondsField | src/components/sections/InstantDemo.tsx:187-188 | the seconds part is exactly two digits, the first at most 5, reading back as the seconds |
| InstantDemo.ClockFields | src/components/sections/InstantDemo.tsx:185-189 | a clock reads back field by field: the minutes before the colon and the two seconds characters after it |
| InstantDemo.ParseClock | src/components/sections/InstantDemo.tsx:185-189 | the reader inverse to the clock: it reads only text with a colon three from the end; `ClockRoundTrip` states that it inverts `FormatTime` |
| InstantDemo.ClockParts | src/components/sections/InstantDemo.tsx:185-189 | a clock built from whole minutes and seconds below 60 reads back as their total in seconds |
| InstantDemo.ClockRoundTrip | src/components/sections/InstantDemo.tsx:185-189 | reading the clock back gives the time shown, so no two times share a clock |
| InstantDemo.FormatTimeExamples | src/components/sections/InstantDemo.tsx:185-189 | 0 is "0:00", 65 is "1:05" and 3600 is "60:00": minutes are not capped |
| InstantDemo.AudioPicker.constructor | src/components/sections/InstantDemo.tsx:143-146 | nothing is selected or playing and the clock is at 0 |
| InstantDemo.AudioPicker.IndustryClick | src/components/sections/InstantDemo.tsx:191-204 | the selected card deselects and rewinds its audio; another card is selected with the clock at 0; playback stops either way |
| InstantDemo.AudioPicker.PlayPause | src/components/sections/InstantDemo.tsx:166-175 | with a recording, playing flips and play or pause is requested; without one nothing happens |
| InstantDemo.AudioPicker.Seek | src/components/sections/InstantDemo.tsx:177-183 | with a recording, the clock and the audio move to the time chosen; without one nothing happens |
| InstantDemo.AudioPicker.OnTimeUpdate | src/components/sections/InstantDemo.tsx:153-155 | the clock follows the audio position |
| InstantDemo.AudioPicker.OnLoadedMetadata | src/components/sections/InstantDemo.tsx:156-158 | the duration follows the audio metadata |
| InstantDemo.AudioPicker.OnEnded | src/components/sections/InstantDemo.tsx:159-162 | the end of the recording stops playback at 0 |
| Faq.Toggled | src/components/sections/FAQ.tsx:13-15 | after a click the clicked item is open exactly when it was closed, and no other item is open |
| Faq.ToggleTwice | src/components/sections/FAQ.tsx:13-15 | two clicks on one item restore the state when it or nothing was open, and close everything when another was open |
| Faq.Accordion.constructor | src/components/sections/FAQ.tsx:11 | the first question starts open |
| Faq.Accordion.Toggle | src/components/sections/FAQ.tsx:13-35 | a click opens the item exactly when it was closed, and leaves every other item closed |
| TextSupport.AgentsNeeded | src/pages/demos/TextSupportDemo.tsx:17 | the agents needed are the fewest whose 400 tickets each cover the volume |
| TextSupport.AnnualHumanCost | src/pages/demos/TextSupportDemo.tsx:18 | the yearly human cost; `HumanCostMonotone` states it |
| TextSupport.Savings | src/pages/demos/TextSupportDemo.tsx:20 | the yearly saving; `SavingsOnSlider` states it |
| TextSupport.AgentsMonotone | src/pages/demos/TextSupportDemo.tsx:17 | more tickets never need fewer agents |
| TextSupport.HumanCostMonotone | src/pages/demos/TextSupportDemo.tsx:17-18 | the yearly human cost never falls as the volume rises |
| TextSupport.SavingsOnSlider | src/pages/demos/TextSupportDemo.tsx:18-63 | across the 100..5000 slider the saving is at least $3,600, reached at 100 tickets |
| TextSupport.AnnualToggleChangesNoFigure | src/pages/demos/TextSupportDemo.tsx:9-47 | the annual toggle changes no figure |
| RoiCalculator.MonthlyBurn | src/components/sections/RoiCalculator.tsx:9 | the monthly burn; `NoBurn`, `BurnOnSliders` and `BurnMonotone` state it |
| RoiCalculator.NoBurn | src/components/sections/RoiCalculator.tsx:9 | no missed calls or no customer value means no burn |
| RoiCalculator.BurnOnSliders | src/components/sections/RoiCalculator.tsx:9-56 | on the sliders the burn lies in 0..2,000,000 and is a multiple of 200 |
| RoiCalculator.BurnMonotone | src/components/sections/RoiCalculator.tsx:9 | raising either input never lowers the burn |
| PhoneSupport.AnnualLoss | src/pages/demos/PhoneSupportDemo.tsx:11 | the yearly loss; `ShowsLossExactly` states when it is positive |
| PhoneSupport.Saving | src/pages/demos/PhoneSupportDemo.tsx:79-117 | the quoted saving; `NegativeSaving` states it can be negative |
| PhoneSupport.ShowsLoss | src/pages/demos/PhoneSupportDemo.tsx:79 | the loss card's condition; `ShowsLossExactly` states it |
| PhoneSupport.ShowsLossExactly | src/pages/demos/PhoneSupportDemo.tsx:11-79 | on the 0..50 slider the loss card shows exactly when calls are missed and the value is positive |
| PhoneSupport.NegativeSaving | src/pages/demos/PhoneSupportDemo.tsx:79-117 | with no missed calls the quoted saving is -$1,200 and no loss card shows |
| PhoneSupport.ThemeChangesNoFigure | src/pages/demos/PhoneSupportDemo.tsx:9-37 | the day/night switch changes no figure |
| AppointmentSetting.WeeklyCost | src/pages/demos/AppointmentSettingDemo.tsx:10 | the weekly cost; `AnnualCostOnSlider` states the yearly bounds |
| AppointmentSetting.AnnualCost | src/pages/demos/AppointmentSettingDemo.tsx:11 | the yearly cost; `AnnualCostOnSlider` states its bounds |
| AppointmentSetting.AnnualSavings | src/pages/demos/AppointmentSettingDemo.tsx:12 | the yearly saving; `SavingsCanBeNegative` states it |
| AppointmentSetting.AnnualCostOnSlider | src/pages/demos/AppointmentSettingDemo.tsx:10-45 | with 1..20 hours a week and a non-negative rate, a year costs between 52 and 1040 hours of the rate |
| AppointmentSetting.SavingsCanBeNegative | src/pages/demos/AppointmentSettingDemo.tsx:12-58 | a low rate gives a negative saving; the defaults give $24,800 |
| ProductizedInfo.ManualRevenue | src/pages/demos/ProductizedInfoDemo.tsx:10 | the manual revenue; `RevenueFacts` states it |
| ProductizedInfo.ProductizedRevenue | src/pages/demos/ProductizedInfoDemo.tsx:11 | the productised revenue; `RevenueFacts` states it |
| ProductizedInfo.RevenueFacts | src/pages/demos/ProductizedInfoDemo.tsx:8-44 | productised revenue is ten times manual revenue, and on the slider manual revenue lies in 5,000..50,000 |

## Left out

- Network and SDK calls are not modelled: the database insert, the backend
  POSTs, the webhooks, the voice SDK's start and stop, and the page
  redirect. Each one's result is a parameter of the method that handles it,
  and each request is returned as a value.
- Timers are not modelled. The speed-to-lead simulation delay is the
  `TimerFired` method. The timer-driven fake demo pages and the cycling or
  count-up counters have no logic and are not part of this model.
- `MeetMia.tsx` is not part of this model. It wraps the same voice SDK
  call pattern as `VoiceDemo`.
- Routing, scrolling, layout, styling, animation, charts and the static
  marketing pages are not part of this model. `src/types/index.ts` holds
  only type declarations.
- ReceptionistDashboard.Dashboard.SetNumber: only whole numbers are
  modelled. `parseFloat` also reads fractions, exponents and `-0`, and the
  dashboard's figures are IEEE doubles. The model uses exact integer
  arithmetic with `floor`, so double rounding at a floor boundary is not
  captured: in the browser `3 * 0.7 * 30` is just below 63 and floors to 62.
- ReceptionistDashboard.PercentOf: the model takes the exact floor of
  `x * rate / 100`, while the browser floors the double `x * (rate / 100)`.
  These differ for whole-number inputs too: in double arithmetic
  `180 * (35 / 100)` is just below 63 and floors to 62 where the model
  gives 63, and 100 clients at 29% churn give 28 rather than 29. The
  difference carries into `Roi`, `Mrr` and `Pipeline`, which use
  `PercentOf`.
- ReceptionistDashboard.Dashboard.SetCallsPerPost: calls per post are held
  in tenths, the input's step. Values finer than a tenth are not modelled.
- InstantDemo.FormatTime: audio times are whole seconds. The browser's
  fractional times and `NaN` durations are not modelled.
- DiscoveryForm.Wizard.HandleProofAssetChange: the slot index must be one
  of the three rendered slots. JavaScript would also let an index past the
  end grow the list, which no rendered input can do.
- VoiceDemo.BuiltAssistant: the assistant id is modelled as a string. JSON
  numbers and other truthy values are not modelled.
- Text is a sequence of characters. JavaScript counts UTF-16 code units,
  so `SpeedToLead.AcceptsPhone` differs from the browser for characters
  outside the Basic Multilingual Plane.
- The voice widget's volume level is an exact `real`, not a double.
- PhoneSupport.AnnualLoss: the average value is a whole number. Its input
  is a free number box, so the browser also takes fractions, which the
  model does not.
- AppointmentSetting.WeeklyCost: the hourly rate is a whole number. Its
  input is a free number box, so the browser also takes fractions, which
  the model does not.
- DiscoveryForm.Wizard.BeginSubmit: the browser's own constraint
  validation is not modelled. The rendered `required` inputs and the
  `type="email"` contact email are checked by the browser before
  `onSubmit` runs, so a malformed email never reaches `handleSubmit`; the
  model lets it through to `ValidateSection`, which only asks for a
  non-empty value.
