# MENTORA frontend — a Dafny model of the simulation pages

MENTORA is a web frontend that lets a student rehearse a thesis proposal
defence. The student uploads a PDF or DOCX proposal. A setup page lets them
pick a mode (`demo` or `simulasi`) and test the microphone with the browser's
speech recognizer. The session page then plays an examiner ("dosen") who asks
seven scripted prompts. The student answers by voice while a 30-minute timer
counts down. A history page lists past simulations with score badges and
summary statistics.

This project models the logic of those pages:

- `Session` (`session.dfy`): the session page. It covers the six-state
  controller, the countdown, `mm:ss` time formatting, the microphone button,
  and the way speech results are folded into the user's transcript entry.
  It also covers the chain of timed continuations after each answer and the
  record handed to the evaluation page. Each browser callback is a method of
  the class `SessionController`, called when its event fires.
- `Setup` (`setup.dfy`): the setup page. It covers loading the record from
  the URL, mode selection, the microphone test and its pass flag, and the
  start button that the pass flag gates.
- `History` (`history.dfy`) and `HistoryCard` (`history_card.dfy`): the
  history page's statistics and the two score badges. The page's badge and
  the card's badge use different thresholds and are kept apart.
- `UploadPage` (`upload.dfy`), `FileUploadComponent` (`file_upload.dfy`) and
  `Files` (`files.dfy`): the upload page, which accepts PDF or DOCX, and the
  `FileUpload` component, which accepts PDF only and reports each kept file
  to its parent.
- `Text`, `Speech`, `Records` and `Wrappers`: JavaScript's `trim`,
  `toString` and `padStart`; the speech-result chunks; the shared session
  record; and `Option`.

Inputs the pages get from the browser are parameters of the methods. These
are the dropped or chosen files, the speech results with their
`resultIndex`, whether `start()` throws, what the `data` query parameter
parsed to, and the `uuid` and `Date` values given to new messages.

## Model

| member | source | states |
|---|---|---|
| `Session.LastQuestionIsLast` | app/session/page.tsx:38-46 | There are seven scripted prompts, so the closing prompt has index 6. |
| `Session.FormatTime` | app/session/page.tsx:144-150 | Definition of `formatTime`: minutes (`seconds div 60`) and seconds (`seconds mod 60`), each padded to two digits, joined by a colon. Its properties are the three lemmas below. |
| `Session.Pad2` | app/session/page.tsx:147-149 | Definition: `toString()` of the number, padded on the left with `0` to two characters. |
| `Session.FormatTimeShape` | app/session/page.tsx:144-150 | Below 6000 seconds, `formatTime` gives five characters: two digits, a colon and two digits. They denote the minutes and the seconds. |
| `Session.FormatTimeRoundTrip` | app/session/page.tsx:144-150 | Below 6000 seconds, reading the `mm:ss` text back gives the same number of seconds. |
| `Session.FormatTimeWide` | app/session/page.tsx:144-150 | From 100 minutes up, the minutes field has more than two digits, so the text is no longer `mm:ss`. |
| `Session.Pad2Value` | app/session/page.tsx:147-149 | Below 100, `toString().padStart(2, "0")` gives exactly two digits that denote the number. |
| `Session.MicButtonVariant` | app/session/page.tsx:364-368 | The button is destructive exactly while the user speaks. It is default exactly while waiting for the user. Otherwise it is secondary. |
| `Session.IsDisabled` | app/session/page.tsx:415-416 | The mic button is disabled exactly when it is drawn as secondary. |
| `Session.Countdown` | app/session/page.tsx:107-121 | No tick in `connecting` or `ending`. Otherwise the time drops by one, never below zero. The state becomes `ending` exactly when the time reaches zero, and is kept otherwise. |
| `Session.CountdownN` | app/session/page.tsx:110-118 | Definition: the state and time after `n` interval ticks with nothing else happening, one `Countdown` step per tick. |
| `Session.CountdownRunning` | app/session/page.tsx:107-121 | Fewer than `t` ticks from `t` seconds leave the state alone and take one second each. |
| `Session.CountdownEnds` | app/session/page.tsx:107-121 | A running session with `t` seconds left is still running after fewer than `t` ticks. It is `ending` with zero seconds after exactly `t` ticks. |
| `Session.ReplaceText` | app/session/page.tsx:264-270 | Only the entry at the index gets the new text; every other entry and the length stay. An index out of range changes nothing. |
| `Session.TrimEntry` | app/session/page.tsx:278-288 | Only the entry at the index is trimmed; every other entry and the length stay. |
| `Session.FoldFinals` | app/session/page.tsx:254-256 | Definition of the `currentFinalRef` update: for each final chunk in order, the final text becomes `trim(final + chunk) + " "`; interim chunks leave it. |
| `Session.FoldFinalsKeepsShape` | app/session/page.tsx:254-256 | Folding final chunks keeps the final text well formed: empty, or a trimmed text plus one space. |
| `Session.FoldFinalsInterimOnly` | app/session/page.tsx:254-258 | A batch without final results leaves the final text unchanged. |
| `Session.FoldFinalsShape` | app/session/page.tsx:254-256 | After a batch with a final result, the final text is non-empty and well formed, whatever it was before. |
| `Session.HasFinalSplit` | app/session/page.tsx:251-254 | A batch has a final result exactly when its prefix has one or its last result is final. |
| `Session.FoldFinalsStep` | app/session/page.tsx:251-260 | One more result extends the final text (if final) or the interim text (if not) by that result alone. |
| `Session.FoldFinalsConcat` | app/session/page.tsx:251-260 | Folding two batches one after the other gives the same final text as folding them as one batch. |
| `Session.ReplyText` | app/session/page.tsx:293 | Definition: the examiner's reply "Simulasi: Menanggapi pertanyaan ke-" followed by the 1-based prompt number and a full stop. |
| `Session.ScanResults` | app/session/page.tsx:249-260 | The `onresult` loop over `results[resultIndex..]` produces the folded final text and the joined interim text. |
| `Session.SessionController.constructor` | app/session/page.tsx:60-89 | The page starts `connecting` with an empty transcript, 1800 seconds, question 0, no recording. The session record is the fixed one: "Laporan Penelitian.pdf", its abstract, id "12345", mode `simulasi`, no transcript, 1800 seconds. |
| `Session.SessionController.TargetIndex` | app/session/page.tsx:266 | Definition: the entry a speech handler edits, `lastMessageIndexRef.current ?? transcript.length - 1` (also line 280). |
| `Session.SessionController.AddMessage` | app/session/page.tsx:134-142 | Appends one entry and leaves the earlier entries as they were. |
| `Session.SessionController.ConnectTimeout` | app/session/page.tsx:96-99 | After connecting, the state is `listening_ai` and the first prompt is appended. |
| `Session.SessionController.GreetingDone` | app/session/page.tsx:100-102 | Next comes the user's turn (`waiting_user`). |
| `Session.SessionController.Tick` | app/session/page.tsx:110-118 | One interval tick changes state and time exactly as `Countdown` says. |
| `Session.SessionController.MicToggle` | app/session/page.tsx:209-230 | Acts only in `waiting_user` or `user_speaking`. When not recording, it starts a recognizer if the browser has one and says "unsupported" otherwise, leaving the session in its state. When recording, it stops the live recognizer. A start is requested only from `waiting_user`: the invariant ties `user_speaking` to recording. The start case clears the refs and captures the question index, transcript and time. Every other case changes nothing. |
| `Session.SessionController.RecognitionStart` | app/session/page.tsx:231-246 | Recording, `user_speaking`, and an empty user entry appended whose index is recorded. |
| `Session.SessionController.RecognitionResult` | app/session/page.tsx:248-271 | The final text becomes the fold of the batch and stays well formed. Only the targeted entry changes, to the trimmed final-plus-interim text. |
| `Session.SessionController.RecognitionEnd` | app/session/page.tsx:273-288 | Not recording, `processing`, and only the targeted entry trimmed. |
| `Session.SessionController.RecognitionError` | app/session/page.tsx:319-324 | Not recording, back to `waiting_user`, transcript untouched. |
| `Session.SessionController.ReplyTimeout` | app/session/page.tsx:290-294 | Appends the examiner's reply naming the captured prompt's 1-based number. |
| `Session.SessionController.AdvanceTimeout` | app/session/page.tsx:296-315 | Before the closing prompt: `listening_ai`, the index moves to the captured index plus one, and that prompt is appended. At the closing prompt: `ending`, and the end of the session is scheduled. The question index never goes down. |
| `Session.SessionController.PromptDone` | app/session/page.tsx:303-310 | After the closing prompt has been asked the session ends and the hand-off is scheduled; after any other prompt it is the user's turn. |
| `Session.SessionController.EndSessionAsWritten` | app/session/page.tsx:152-164 | The record the scheduled `onSessionEnd` forwards has the transcript and time captured at mic toggle. Its other fields come from the loaded record. |
| `Session.SessionController.EndSession` | app/session/page.tsx:152-164 | The intended hand-off, and the one the "Selesaikan Sesi" button (line 444) performs with the current render's `onSessionEnd`: the current transcript and remaining time (within 0..1800), with the other fields from the loaded record. |
| `Session.StaleHandOff` | app/session/page.tsx:306-313 | Through the closing turn (answer to the sixth prompt, reply, closing prompt, end): the as-written hand-off forwards the transcript and time of the toggle, while the live transcript holds three more entries, the user's answer, the reply and the closing prompt. |
| `Text.Trim` | app/session/page.tsx:255-256 | `trim()` returns a text with no leading or trailing whitespace that is no longer than its input. |
| `Text.TrimRemovesOnlyPadding` | app/session/page.tsx:262 | `trim()` only removes whitespace from the two ends: the result sits inside the input with whitespace on both sides. |
| `Text.TrimIdempotent` | app/session/page.tsx:284 | Trimming twice is the same as trimming once. |
| `Text.NatToString` | app/session/page.tsx:147-149 | `toString()` of a natural number: decimal digits that denote it, with a leading zero only for zero. |
| `Text.PadStart` | app/session/page.tsx:147-149 | `padStart` keeps the text as a suffix and pads on the left with the pad character up to the width. |
| `Speech.FromIndex` | app/session/page.tsx:251 | Definition (not a claim): the results the loop visits, `results[resultIndex..]`, and none when the index is past the end. |
| `Speech.Interims` | app/session/page.tsx:258 | Definition: the interim (non-final) chunks of a batch joined in order, as both pages accumulate them (also app/setup/page.tsx:70). |
| `Speech.InterimsConcat` | app/session/page.tsx:258 | The interim text of two batches is the two interim texts joined. |
| `Setup.Finals` | app/setup/page.tsx:65-72 | Definition: the final chunks in order, each followed by one space, with nothing trimmed. |
| `Setup.TestTranscript` | app/setup/page.tsx:73 | Definition: the test's text, the final text followed by the interim text. |
| `Setup.FinalsEndInSpace` | app/setup/page.tsx:67-68 | Every final chunk is followed by a space, so the final text is empty or ends in a space. |
| `Setup.TestTranscriptNonEmpty` | app/setup/page.tsx:73-77 | The test transcript is non-empty exactly when some visited result is final or carries interim text. |
| `Setup.TestStep` | app/setup/page.tsx:65-72 | One more result extends the final text or the interim text by that result alone. |
| `Setup.ScanTest` | app/setup/page.tsx:62-73 | The `onresult` loop gives the final chunks (each plus a space), then the interim chunks. |
| `Setup.MicTest.constructor` | app/setup/page.tsx:25-31 | No record, `simulasi` selected, not listening, test not passed, empty transcript. |
| `Setup.MicTest.Load` | app/setup/page.tsx:33-47 | A parsed record is kept. A missing or unparsable one redirects to `/upload` and leaves the record as it was. |
| `Setup.MicTest.SelectMode` | app/setup/page.tsx:200-222 | The chosen radio button's mode becomes the selected mode. |
| `Setup.MicTest.StartTestEnabled` | app/setup/page.tsx:246-258 | "Mulai Tes" and "Berhenti" are never enabled together; with a recognizer exactly one of them is, and without one "Mulai Tes" is disabled. |
| `Setup.MicTest.StopTestEnabled` | app/setup/page.tsx:255-258 | "Berhenti" is enabled exactly while a test is running. |
| `Setup.MicTest.StartListening` | app/setup/page.tsx:99-112 | When "Mulai Tes" is enabled, the pass flag is cleared. The test is then listening with the prompt shown, or, if `start()` throws, not listening with the failure text shown. Otherwise nothing changes. |
| `Setup.MicTest.StopListening` | app/setup/page.tsx:114-119 | Afterwards no test is running. `stop()` is called exactly when one was running. |
| `Setup.MicTest.OnResult` | app/setup/page.tsx:62-78 | The transcript shows the batch's text. The test passes when it passed before or the text is non-empty; `onresult` never clears the flag. |
| `Setup.MicTest.OnEnd` | app/setup/page.tsx:80-82 | The test stops listening; the transcript and the verdict stay. |
| `Setup.MicTest.OnError` | app/setup/page.tsx:84-88 | The test stops listening and shows the error text. |
| `Setup.MicTest.BeginSimulation` | app/setup/page.tsx:153-162 | With a record loaded, it goes to the session page with that record and the selected mode, other fields kept. Without a record it stays. |
| `Setup.MicTest.ClickBegin` | app/setup/page.tsx:310-316 | The start button leads to the session page exactly when the test passed and a record is loaded. |
| `History.Scores` | app/riwayat/page.tsx:53 | Definition (not a claim) of the `map`: the scores, one per entry, in order. |
| `History.Sum` | app/riwayat/page.tsx:54 | Definition: the `reduce` that adds the scores, starting from 0. |
| `History.MaxOf` | app/riwayat/page.tsx:56 | `Math.max` of a non-empty list is an element of it and no element is larger. |
| `History.RoundHalfUp` | app/riwayat/page.tsx:55 | `Math.round(num / den)` is the integer `r` with `r - 1/2 <= num/den < r + 1/2`. |
| `History.CalculateStats` | app/riwayat/page.tsx:49-59 | Empty history gives zeros. Otherwise: the entry count, the mean score rounded half up, and the highest score, which some entry has and no entry exceeds. |
| `History.SumBounds` | app/riwayat/page.tsx:54 | The sum of scores lies between count times the lowest and count times the highest. |
| `History.RoundedMeanWithin` | app/riwayat/page.tsx:55 | A rounded mean of values in `[lo, hi]` stays in `[lo, hi]`. |
| `History.AverageWithinScores` | app/riwayat/page.tsx:49-59 | The displayed average lies between the lowest and the highest score. |
| `History.MockStats` | app/riwayat/page.tsx:20-25 | The sample history shows 4 simulations, average 84 and highest 92. |
| `History.RiwayatBadge` | app/riwayat/page.tsx:28-39 | The history page's badge: green from 90, blue from 80, yellow from 75, orange below. Its gray default never shows. |
| `History.RiwayatBadgeMonotone` | app/riwayat/page.tsx:31-39 | A higher score never gets a lower badge. |
| `HistoryCard.CardBadge` | app/components/HistoryItemCard.tsx:25-28 | The card's badge: green from 90, blue from 80, yellow from 70, gray below 70, never orange. |
| `HistoryCard.CardBadgeMonotone` | app/components/HistoryItemCard.tsx:25-28 | A higher score never gets a lower badge. |
| `HistoryCard.BadgesCompared` | app/components/HistoryItemCard.tsx:25-28 | The two badges agree exactly from 75 up. From 70 to 74 the card shows yellow where the page's badge shows orange. |
| `HistoryCard.CardBadges` | app/riwayat/page.tsx:80-89 | Definition (not a claim) of the `map` that draws the cards: one card badge per history entry, in order. |
| `HistoryCard.MockBadges` | app/riwayat/page.tsx:80-89 | For the sample history the cards show blue, yellow, green and blue, and the page's own badge would agree on each. |
| `Files.FindFirst` | app/upload/page.tsx:29-30 | `find` returns the first file of an accepted type, or none when no file has one. |
| `Files.FirstIfAccepted` | app/upload/page.tsx:38-39 | Only the first chosen file is considered, and it is taken exactly when its type is accepted. |
| `Files.FindFirstTypesOnly` | app/upload/page.tsx:25-35 | The pick depends on the MIME types alone. Names and sizes play no part, so the "Maksimal 10MB" label is not enforced. |
| `Files.WiderTypesPickEarlier` | app/components/FileUpload.tsx:28-29 | When the component's PDF-only search finds a file, the page's PDF-or-DOCX search finds that file or an earlier one. |
| `UploadPage.FileUploadPage.constructor` | app/upload/page.tsx:12-13 | No highlight and no selection. |
| `UploadPage.FileUploadPage.DragOver` | app/upload/page.tsx:15-18 | The drop zone is highlighted. |
| `UploadPage.FileUploadPage.DragLeave` | app/upload/page.tsx:20-23 | The highlight goes away. |
| `UploadPage.FileUploadPage.Drop` | app/upload/page.tsx:25-35 | The highlight goes away. The first PDF or DOCX becomes the selection; a drop without one keeps the old selection. A kept file is always PDF or DOCX. |
| `UploadPage.FileUploadPage.FileSelect` | app/upload/page.tsx:37-42 | The first chosen file becomes the selection when it is PDF or DOCX. Otherwise nothing changes. |
| `UploadPage.FileUploadPage.Simulasi` | app/upload/page.tsx:44-50 | It goes on to processing exactly when a document is selected, and otherwise alerts with the missing-document message. |
| `FileUploadComponent.FileUpload.constructor` | app/components/FileUpload.tsx:11-12 | No highlight, no selection, nothing reported. |
| `FileUploadComponent.FileUpload.DragOver` | app/components/FileUpload.tsx:14-17 | The drop zone is highlighted. |
| `FileUploadComponent.FileUpload.DragLeave` | app/components/FileUpload.tsx:19-22 | The highlight goes away. |
| `FileUploadComponent.FileUpload.Drop` | app/components/FileUpload.tsx:24-35 | The first dropped PDF is kept and its name reported once. Otherwise nothing is reported and the selection stays. A kept file is a PDF and was reported last. |
| `FileUploadComponent.FileUpload.FileSelect` | app/components/FileUpload.tsx:37-43 | The first chosen file is kept and reported when it is a PDF. Otherwise nothing changes. |

## Left out

- The audio monitor (`startAudioMonitor` / `stopAudioMonitor`, microphone level, animation frames): it drives only the visual orb.
- Real timers and the order in which React state updates are applied. Each `setTimeout` / `setInterval` continuation is a method, and a caller decides the order of events. Interleavings the browser could produce, such as a tick arriving between two continuations, are not ruled out or analysed.
- Several recognizers alive at once. The model keeps one set of captured values (`turnIndex`, `capturedTranscript`, `capturedTime`), those of the recognizer created last. `hasRecognition` is never reset, as `recognitionRef` is never cleared.
- JSON encoding and URL encoding of the session record between pages. The setup page's load is reduced to "missing", "malformed" or "parsed". Navigation is a returned value.
- The session page's `getStatusText`, `buttonClass`, `renderMicIcon` and the setup page's `renderMicTestStatus`: these map a state to display text or CSS classes.
- The exact Tailwind class strings of the score badges: only their colour is modelled. The card's `Download` button has no click handler, and the history page's `handleDownload` alert is not modelled.
- Login, registration, processing, evaluation, the landing and about pages, and the header: not part of this model.
- `Text.Trim`: whitespace is a fixed set of characters (ASCII whitespace, no-break space, BOM, and the line and paragraph separators). It does not cover every Unicode space separator that JavaScript's `trim` removes.
- `History.CalculateStats`: scores are integers. JavaScript numbers with fractional scores are not modelled.
- `Session.SessionController.RecognitionResult`: `currentFinalRef` is written once after the loop, not once per final chunk. Nothing reads it in between, so the result is the same.
- `Session.SessionController.MicToggle`: the browser's `SpeechRecognition` constructor is the fixed flag `speechSupported`. Its `start()` and `stop()` calls are the returned action.

## Findings

| source | as written | input that shows it | evidently intended | confidence | as-written member | corrected member |
|---|---|---|---|---|---|---|
| app/session/page.tsx:306-313 | The end-of-session timeout calls the `onSessionEnd` closed over by the render in which the mic was toggled on. It forwards that render's `transcript` and `timeRemaining`. | Any answered turn after which the session ends. The toggle happens with the prompts asked so far. The answer entry, the examiner's reply and any later prompt are appended afterwards. None of them reaches the evaluation page, and the forwarded time is the time at toggle. | Forward the transcript and remaining time as they are when the session ends, as the "Selesaikan Sesi" button (line 444) already does through the current render's `onSessionEnd`. | medium (not executed) | `Session.SessionController.EndSessionAsWritten`, `Session.StaleHandOff` | `Session.SessionController.EndSession` |
