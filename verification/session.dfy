/**
 * The oral-exam session page: a six-state controller that walks through a
 * fixed list of examiner prompts, counts a timer down from 1800 seconds and
 * keeps a transcript that grows, except that the user entry being spoken is
 * rewritten in place while speech results arrive.
 *
 * Every browser callback (the recognizer's `onstart`, `onresult`, `onend`,
 * `onerror`, the one-second interval and each `setTimeout` continuation) is
 * a method of `SessionController`, called when that event fires.
 */
module Session {
  import opened Wrappers
  import opened Text
  import opened Speech
  import opened Records

  datatype SessionState = Connecting | ListeningAi | WaitingUser | UserSpeaking | Processing | Ending

  /** The examiner's scripted prompts, asked in order. */
  const MockQuestions: seq<string> := [
    "Selamat datang. Silakan mulai dengan memperkenalkan diri Anda dan menyampaikan judul penelitian Anda.",
    "Apa yang melatarbelakangi Anda untuk memilih topik penelitian ini?",
    "Bisakah Anda jelaskan rumusan masalah yang akan Anda teliti?",
    "Apa kebaruan atau kontribusi dari metode yang Anda gunakan?",
    "Bagaimana Anda akan mengukur keberhasilan penelitian ini?",
    "Apa kendala atau limitasi yang mungkin Anda hadapi dalam penelitian ini?",
    "Baik, waktu kita hampir habis. Sebagai penutup, terima kasih atas presentasi Anda."
  ]

  /** Index of the closing prompt, `mockQuestions.length - 1`. */
  const LastQuestion: nat := 6

  lemma LastQuestionIsLast()
    ensures |MockQuestions| == LastQuestion + 1
  {
  }

  /** Length of a session, in seconds. */
  const SessionSeconds: int := 1800

  // ------------------------------------------------------------------
  // formatTime
  // ------------------------------------------------------------------

  /** `n.toString().padStart(2, "0")`. */
  function Pad2(n: nat): string {
    PadStart(NatToString(n), 2, '0')
  }

  /** `formatTime`: minutes and seconds, each padded to two digits, joined by a colon. */
  function FormatTime(seconds: nat): string {
    Pad2(seconds / 60) + ":" + Pad2(seconds % 60)
  }

  /** Reads back an `mm:ss` string with two-digit fields and seconds below 60. */
  function ParseTime(t: string): Option<nat> {
    if |t| == 5 && t[2] == ':' && AllDigits(t[..2]) && AllDigits(t[3..]) && DecimalValue(t[3..]) < 60
    then Some(DecimalValue(t[..2]) * 60 + DecimalValue(t[3..]))
    else None
  }

  /** Below 100 the padded field is exactly two digits and denotes `n`. */
  lemma {:induction false} Pad2Value(n: nat)
    requires n < 100
    ensures |Pad2(n)| == 2 && AllDigits(Pad2(n)) && DecimalValue(Pad2(n)) == n
  {
    var s := NatToString(n);
    if n < 10 {
      assert Pad2(n) == ['0'] + s;
      LeadingZero(s);
    } else {
      assert Pad2(n) == s;
    }
  }

  /** For 0 <= s < 6000 the text is `mm:ss`: five characters, digits around a colon, denoting s div 60 and s mod 60. */
  lemma {:induction false} FormatTimeShape(s: nat)
    requires s < 6000
    ensures var t := FormatTime(s);
      |t| == 5 && t[2] == ':' && AllDigits(t[..2]) && AllDigits(t[3..])
      && DecimalValue(t[..2]) == s / 60 && DecimalValue(t[3..]) == s % 60
  {
    Pad2Value(s / 60);
    Pad2Value(s % 60);
    var t := FormatTime(s);
    assert t[..2] == Pad2(s / 60);
    assert t[3..] == Pad2(s % 60);
  }

  /** Formatting a time below 100 minutes and parsing it back gives the same number of seconds. */
  lemma FormatTimeRoundTrip(s: nat)
    requires s < 6000
    ensures ParseTime(FormatTime(s)) == Some(s)
  {
    FormatTimeShape(s);
  }

  /** From 100 minutes on, the minutes field has three or more digits, so the text is longer than `mm:ss`. */
  lemma {:induction false} FormatTimeWide(s: nat)
    requires s >= 6000
    ensures |FormatTime(s)| > 5 && ParseTime(FormatTime(s)) == None
  {
    var m := NatToString(s / 60);
    assert |m| >= 3 by {
      assert |m| != 1 && |m| != 2;
    }
  }

  // ------------------------------------------------------------------
  // Mic button
  // ------------------------------------------------------------------

  datatype ButtonVariant = Destructive | Default | Secondary

  /** `getMicButtonVariant`: red while the user speaks, blue when it is the user's turn, gray otherwise. */
  function MicButtonVariant(s: SessionState): (v: ButtonVariant)
    ensures v == Destructive <==> s == UserSpeaking
    ensures v == Default <==> s == WaitingUser
  {
    if s == UserSpeaking then Destructive
    else if s == WaitingUser then Default
    else Secondary
  }

  /** `isDisabled`: the mic button is disabled exactly when it is drawn gray. */
  function IsDisabled(s: SessionState): (r: bool)
    ensures r <==> MicButtonVariant(s) == Secondary
  {
    s != WaitingUser && s != UserSpeaking
  }

  // ------------------------------------------------------------------
  // Countdown
  // ------------------------------------------------------------------

  /** The interval runs in every state but `connecting` and `ending`. */
  predicate TimerRunning(s: SessionState) {
    s != Connecting && s != Ending
  }

  /** One tick of the countdown: the state and remaining time after it. */
  function Countdown(s: SessionState, t: int): (r: (SessionState, int))
    ensures !TimerRunning(s) ==> r == (s, t)
    ensures TimerRunning(s) ==> r.1 == (if t - 1 < 0 then 0 else t - 1)
    ensures TimerRunning(s) ==> (r.0 == Ending <==> r.1 == 0)
    ensures TimerRunning(s) && r.0 != Ending ==> r.0 == s
  {
    if !TimerRunning(s) then (s, t)
    else if t <= 1 then (Ending, 0)
    else (s, t - 1)
  }

  /** The state and remaining time after `n` uninterrupted ticks. */
  function CountdownN(s: SessionState, t: int, n: nat): (SessionState, int)
  {
    if n == 0 then (s, t)
    else
      var p := CountdownN(s, t, n - 1);
      Countdown(p.0, p.1)
  }

  lemma {:induction false} CountdownRunning(s: SessionState, t: int, k: nat)
    requires TimerRunning(s) && k < t
    ensures CountdownN(s, t, k) == (s, t - k)
  {
    if k > 0 {
      CountdownRunning(s, t, k - 1);
    }
  }

  /** Left alone, a running session with `t` seconds left is still running after fewer than `t` ticks
      and reaches `ending` with exactly zero seconds on the `t`-th tick. */
  lemma CountdownEnds(s: SessionState, t: int)
    requires TimerRunning(s) && t >= 1
    ensures forall k: nat :: k < t ==> CountdownN(s, t, k) == (s, t - k)
    ensures CountdownN(s, t, t) == (Ending, 0)
  {
    forall k: nat | k < t ensures CountdownN(s, t, k) == (s, t - k) {
      CountdownRunning(s, t, k);
    }
    CountdownRunning(s, t, t - 1);
  }

  // ------------------------------------------------------------------
  // Transcript editing
  // ------------------------------------------------------------------

  /** The transcript with the text of entry `idx` replaced; an index out of range changes nothing. */
  function ReplaceText(ts: seq<ChatMessage>, idx: int, text: string): (r: seq<ChatMessage>)
    ensures |r| == |ts|
    ensures forall j :: 0 <= j < |ts| && j != idx ==> r[j] == ts[j]
    ensures 0 <= idx < |ts| ==> r[idx] == ts[idx].(text := text)
  {
    if 0 <= idx < |ts| then ts[idx := ts[idx].(text := text)] else ts
  }

  /** The transcript with the text of entry `idx` trimmed, as recognition end leaves it. */
  function TrimEntry(ts: seq<ChatMessage>, idx: int): (r: seq<ChatMessage>)
    ensures |r| == |ts|
    ensures forall j :: 0 <= j < |ts| && j != idx ==> r[j] == ts[j]
    ensures 0 <= idx < |ts| ==> r[idx] == ts[idx].(text := Trim(ts[idx].text))
  {
    if 0 <= idx < |ts| then ReplaceText(ts, idx, Trim(ts[idx].text)) else ts
  }

  /** The shape of the accumulated final text: empty, or a trimmed text followed by one space. */
  predicate FinalWellFormed(f: string) {
    f == [] || (f[|f| - 1] == ' ' && IsTrimmed(f[..|f| - 1]))
  }

  predicate HasFinal(rs: seq<SpeechResult>) {
    exists i :: 0 <= i < |rs| && rs[i].isFinal
  }

  /** The final text after folding in each final chunk of `rs`, in order, as `trim(final + chunk) + " "`. */
  function FoldFinals(final: string, rs: seq<SpeechResult>): string
  {
    if rs == [] then final
    else
      var prev := FoldFinals(final, rs[..|rs| - 1]);
      var last := rs[|rs| - 1];
      if last.isFinal then Trim(prev + last.transcript) + " " else prev
  }

  lemma SpacedWellFormed(t: string)
    requires IsTrimmed(t)
    ensures FinalWellFormed(t + " ")
  {
    assert (t + " ")[..|t|] == t;
  }

  /** Folding keeps the final text well formed. */
  lemma {:induction false} FoldFinalsKeepsShape(final: string, rs: seq<SpeechResult>)
    requires FinalWellFormed(final)
    ensures FinalWellFormed(FoldFinals(final, rs))
  {
    if rs != [] {
      var prev := FoldFinals(final, rs[..|rs| - 1]);
      var last := rs[|rs| - 1];
      if last.isFinal {
        SpacedWellFormed(Trim(prev + last.transcript));
      } else {
        FoldFinalsKeepsShape(final, rs[..|rs| - 1]);
      }
    }
  }

  /** A list has a final result exactly when its prefix does or its last result is final. */
  lemma HasFinalSplit(rs: seq<SpeechResult>)
    requires rs != []
    ensures HasFinal(rs) <==> HasFinal(rs[..|rs| - 1]) || rs[|rs| - 1].isFinal
  {
    var prefix := rs[..|rs| - 1];
    if HasFinal(rs) && !rs[|rs| - 1].isFinal {
      var i :| 0 <= i < |rs| && rs[i].isFinal;
      assert prefix[i].isFinal;
    }
    if HasFinal(prefix) {
      var i :| 0 <= i < |prefix| && prefix[i].isFinal;
      assert rs[i].isFinal;
    }
  }

  /** Interim results never touch the final text. */
  lemma {:induction false} FoldFinalsInterimOnly(final: string, rs: seq<SpeechResult>)
    requires !HasFinal(rs)
    ensures FoldFinals(final, rs) == final
  {
    if rs != [] {
      HasFinalSplit(rs);
      FoldFinalsInterimOnly(final, rs[..|rs| - 1]);
    }
  }

  /** Once a final result has been seen the final text is a non-empty trimmed text followed by one
      space, whatever it was before. */
  lemma {:induction false} FoldFinalsShape(final: string, rs: seq<SpeechResult>)
    requires HasFinal(rs)
    ensures FoldFinals(final, rs) != [] && FinalWellFormed(FoldFinals(final, rs))
  {
    var prefix := rs[..|rs| - 1];
    var last := rs[|rs| - 1];
    HasFinalSplit(rs);
    if last.isFinal {
      SpacedWellFormed(Trim(FoldFinals(final, prefix) + last.transcript));
    } else {
      FoldFinalsShape(final, prefix);
    }
  }

  /** One more visited result: a final chunk is folded in, an interim one leaves the final text alone. */
  lemma FoldFinalsStep(f: string, w: seq<SpeechResult>, x: SpeechResult)
    ensures FoldFinals(f, w + [x]) == if x.isFinal then Trim(FoldFinals(f, w) + x.transcript) + " " else FoldFinals(f, w)
    ensures Interims(w + [x]) == Interims(w) + (if x.isFinal then "" else x.transcript)
  {
    assert (w + [x])[..|w|] == w;
  }

  /** Handling results in two batches folds the same final text as handling them in one. */
  lemma {:induction false} FoldFinalsConcat(f: string, a: seq<SpeechResult>, b: seq<SpeechResult>)
    ensures FoldFinals(f, a + b) == FoldFinals(FoldFinals(f, a), b)
  {
    if b == [] {
      assert a + b == a;
    } else {
      assert (a + b)[..|a + b| - 1] == a + b[..|b| - 1];
      FoldFinalsConcat(f, a, b[..|b| - 1]);
    }
  }

  /** The examiner's reply after the user's answer to prompt `k`. */
  function ReplyText(k: nat): string {
    "Simulasi: Menanggapi pertanyaan ke-" + NatToString(k + 1) + "."
  }

  /** The loop of `onresult`: visits `results[resultIndex..]` in order (the loop counter `j` stands
      for the source's `i - resultIndex`), folding each final chunk into `final` and appending each
      interim chunk to `interim`. */
  method ScanResults(final0: string, results: seq<SpeechResult>, resultIndex: nat)
    returns (final: string, interim: string)
    ensures final == FoldFinals(final0, FromIndex(results, resultIndex))
    ensures interim == Interims(FromIndex(results, resultIndex))
  {
    final, interim := final0, "";
    var pending := FromIndex(results, resultIndex);
    for j := 0 to |pending|
      invariant final == FoldFinals(final0, pending[..j])
      invariant interim == Interims(pending[..j])
    {
      var res := pending[j];
      assert pending[..j + 1] == pending[..j] + [res];
      FoldFinalsStep(final0, pending[..j], res);
      if res.isFinal {
        final := Trim(final + res.transcript) + " ";
      } else {
        interim := interim + res.transcript;
      }
    }
    assert pending[..|pending|] == pending;
  }

  // ------------------------------------------------------------------
  // The controller
  // ------------------------------------------------------------------

  datatype MicAction = Ignored | Unsupported | StartRequested | StopRequested

  class SessionController {
    /** Whether the browser offers a `SpeechRecognition` constructor. */
    const speechSupported: bool
    /** The session record the page starts from (fixed in the page itself). */
    const sessionData: SessionRecord

    var state: SessionState
    var transcript: seq<ChatMessage>
    var timeRemaining: int
    var currentQuestionIndex: nat
    var isRecording: bool
    /** `recognitionRef.current != null`. */
    var hasRecognition: bool
    /** `currentFinalRef`: final text of the answer being spoken. */
    var currentFinal: string
    /** `lastMessageIndexRef`: where the answer being spoken sits in the transcript. */
    var lastMessageIndex: Option<nat>
    /** The question index the handlers of the live recognizer captured when the mic was toggled on. */
    var turnIndex: nat
    /** The transcript and remaining time the same handlers captured; the `onSessionEnd` they
        schedule reads these. */
    var capturedTranscript: seq<ChatMessage>
    var capturedTime: int

    ghost predicate Valid()
      reads this
    {
      && 0 <= timeRemaining <= SessionSeconds
      && currentQuestionIndex <= LastQuestion
      && turnIndex <= currentQuestionIndex <= turnIndex + 1
      && 0 <= capturedTime <= SessionSeconds
      && (state == UserSpeaking ==> isRecording)
      && (lastMessageIndex.Some? ==>
            lastMessageIndex.value < |transcript| && transcript[lastMessageIndex.value].speaker == User)
    }

    /** The entry a speech handler edits: the recorded index, or the last entry when none is recorded. */
    function TargetIndex(): int
      reads this
    {
      if lastMessageIndex.Some? then lastMessageIndex.value else |transcript| - 1
    }

    /** The page as first rendered: connecting, empty transcript, full time, first prompt pending. */
    constructor (speechSupported: bool)
      ensures Valid()
      ensures this.speechSupported == speechSupported
      ensures sessionData == SessionRecord("Laporan Penelitian.pdf", "Ini adalah abstrak penelitian", "12345",
                                           Some(Simulasi), [], SessionSeconds)
      ensures state == Connecting && transcript == [] && timeRemaining == SessionSeconds
      ensures currentQuestionIndex == 0 && !isRecording && !hasRecognition
      ensures currentFinal == "" && lastMessageIndex == None
      ensures capturedTranscript == [] && capturedTime == SessionSeconds
    {
      this.speechSupported := speechSupported;
      sessionData := SessionRecord("Laporan Penelitian.pdf", "Ini adalah abstrak penelitian", "12345",
                                   Some(Simulasi), [], SessionSeconds);
      state := Connecting;
      transcript := [];
      timeRemaining := SessionSeconds;
      currentQuestionIndex := 0;
      isRecording := false;
      hasRecognition := false;
      currentFinal := "";
      lastMessageIndex := None;
      turnIndex := 0;
      capturedTranscript := [];
      capturedTime := SessionSeconds;
    }

    /** `addMessage`: appends one entry and leaves the others alone. */
    method AddMessage(speaker: Speaker, text: string, id: string, timestamp: int)
      requires Valid()
      modifies this`transcript
      ensures Valid()
      ensures transcript == old(transcript) + [ChatMessage(id, speaker, text, timestamp)]
    {
      transcript := transcript + [ChatMessage(id, speaker, text, timestamp)];
    }

    /** The init effect's first continuation (2000 ms): the examiner asks the first prompt. */
    method ConnectTimeout(id: string, timestamp: int)
      requires Valid()
      modifies this`state, this`transcript
      ensures Valid()
      ensures state == ListeningAi
      ensures transcript == old(transcript) + [ChatMessage(id, Examiner, MockQuestions[0], timestamp)]
    {
      state := ListeningAi;
      AddMessage(Examiner, MockQuestions[0], id, timestamp);
    }

    /** The init effect's second continuation (3000 ms later): the user's turn. */
    method GreetingDone()
      requires Valid()
      modifies this`state
      ensures Valid() && state == WaitingUser
    {
      state := WaitingUser;
    }

    /** One tick of the one-second interval. */
    method Tick()
      requires Valid()
      modifies this`state, this`timeRemaining
      ensures Valid()
      ensures (state, timeRemaining) == Countdown(old(state), old(timeRemaining))
    {
      if state == Connecting || state == Ending {
        return;
      }
      if timeRemaining <= 1 {
        state := Ending;
        timeRemaining := 0;
      } else {
        timeRemaining := timeRemaining - 1;
      }
    }

    /** `handleMicToggle`. It acts only while the user may speak. When not recording it creates a
        recognizer (whose handlers capture the current question index, transcript and remaining
        time) and asks it to start;
        when recording it asks the live recognizer to stop. The recognizer answers later through
        `RecognitionStart`, `RecognitionResult`, `RecognitionEnd` and `RecognitionError`. */
    method MicToggle() returns (action: MicAction)
      requires Valid()
      modifies this`hasRecognition, this`currentFinal, this`lastMessageIndex, this`turnIndex
      modifies this`capturedTranscript, this`capturedTime
      ensures Valid()
      ensures IsDisabled(old(state)) ==> action == Ignored
      ensures action == StartRequested <==> !IsDisabled(old(state)) && !old(isRecording) && speechSupported
      ensures action == StopRequested <==> !IsDisabled(old(state)) && old(isRecording) && old(hasRecognition)
      ensures action == Unsupported <==> !IsDisabled(old(state)) && !old(isRecording) && !speechSupported
      ensures action == StartRequested ==> old(state) == WaitingUser
      ensures action != StartRequested ==> unchanged(this)
      ensures action == StartRequested ==>
        && hasRecognition && currentFinal == "" && lastMessageIndex == None
        && turnIndex == currentQuestionIndex
        && capturedTranscript == transcript && capturedTime == timeRemaining
    {
      if state != WaitingUser && state != UserSpeaking {
        return Ignored;
      }
      if !isRecording {
        if !speechSupported {
          return Unsupported;
        }
        hasRecognition := true;
        currentFinal := "";
        lastMessageIndex := None;
        turnIndex := currentQuestionIndex;
        capturedTranscript := transcript;
        capturedTime := timeRemaining;
        action := StartRequested;
      } else {
        action := if hasRecognition then StopRequested else Ignored;
      }
    }

    /** `onstart`: recording begins and an empty user entry is appended, its index recorded. */
    method RecognitionStart(id: string, timestamp: int)
      requires Valid()
      modifies this`isRecording, this`state, this`transcript, this`lastMessageIndex
      ensures Valid()
      ensures isRecording && state == UserSpeaking
      ensures transcript == old(transcript) + [ChatMessage(id, User, "", timestamp)]
      ensures lastMessageIndex == Some(|old(transcript)|)
    {
      isRecording := true;
      state := UserSpeaking;
      lastMessageIndex := Some(|transcript|);
      transcript := transcript + [ChatMessage(id, User, "", timestamp)];
    }

    /** `onresult`: folds the final chunks into the final text, joins the interim chunks, and writes
        the trimmed sum into the recorded entry only. */
    method RecognitionResult(results: seq<SpeechResult>, resultIndex: nat)
      requires Valid()
      modifies this`currentFinal, this`transcript
      ensures Valid()
      ensures currentFinal == FoldFinals(old(currentFinal), FromIndex(results, resultIndex))
      ensures FinalWellFormed(old(currentFinal)) ==> FinalWellFormed(currentFinal)
      ensures transcript == ReplaceText(old(transcript), old(TargetIndex()),
                                        Trim(currentFinal + Interims(FromIndex(results, resultIndex))))
    {
      var final, interim := ScanResults(currentFinal, results, resultIndex);
      if FinalWellFormed(currentFinal) {
        FoldFinalsKeepsShape(currentFinal, FromIndex(results, resultIndex));
      }
      var combined := Trim(final + interim);
      var idx := TargetIndex();
      var updated := ReplaceText(transcript, idx, combined);
      assert |updated| == |transcript|;
      assert lastMessageIndex.Some? ==> updated[lastMessageIndex.value].speaker == User;
      currentFinal, transcript := final, updated;
    }

    /** `onend`: recording stops, the session goes to `processing`, and the recorded entry is trimmed. */
    method RecognitionEnd()
      requires Valid()
      modifies this`isRecording, this`state, this`transcript
      ensures Valid()
      ensures !isRecording && state == Processing
      ensures transcript == TrimEntry(old(transcript), old(TargetIndex()))
    {
      isRecording := false;
      state := Processing;
      transcript := TrimEntry(transcript, TargetIndex());
    }

    /** `onerror`: back to the user's turn; the transcript is left as it is. */
    method RecognitionError()
      requires Valid()
      modifies this`isRecording, this`state
      ensures Valid()
      ensures !isRecording && state == WaitingUser
    {
      isRecording := false;
      state := WaitingUser;
    }

    /** First continuation after `onend` (1000 ms): the examiner replies to the captured prompt. */
    method ReplyTimeout(id: string, timestamp: int)
      requires Valid()
      modifies this`transcript
      ensures Valid()
      ensures transcript == old(transcript) + [ChatMessage(id, Examiner, ReplyText(turnIndex), timestamp)]
    {
      AddMessage(Examiner, ReplyText(turnIndex), id, timestamp);
    }

    /** Second continuation (1500 ms later): ask the next prompt, or end once the closing prompt
        has been answered. `scheduleEnd` says whether `onSessionEnd` is scheduled. */
    method AdvanceTimeout(id: string, timestamp: int) returns (scheduleEnd: bool)
      requires Valid()
      modifies this`state, this`currentQuestionIndex, this`transcript
      ensures Valid()
      ensures currentQuestionIndex >= old(currentQuestionIndex)
      ensures scheduleEnd <==> turnIndex == LastQuestion
      ensures scheduleEnd ==> state == Ending && unchanged(this`transcript, this`currentQuestionIndex)
      ensures !scheduleEnd ==>
        && state == ListeningAi
        && currentQuestionIndex == turnIndex + 1
        && transcript == old(transcript) + [ChatMessage(id, Examiner, MockQuestions[currentQuestionIndex], timestamp)]
    {
      if turnIndex < LastQuestion {
        state := ListeningAi;
        var nextIndex := turnIndex + 1;
        currentQuestionIndex := nextIndex;
        AddMessage(Examiner, MockQuestions[nextIndex], id, timestamp);
        scheduleEnd := false;
      } else {
        state := Ending;
        scheduleEnd := true;
      }
    }

    /** Third continuation (3000 ms later): after the closing prompt the session ends, otherwise
        it is the user's turn again. */
    method PromptDone() returns (scheduleEnd: bool)
      requires Valid()
      modifies this`state
      ensures Valid()
      ensures scheduleEnd <==> turnIndex + 1 == LastQuestion
      ensures state == if scheduleEnd then Ending else WaitingUser
    {
      if turnIndex + 1 == LastQuestion {
        state := Ending;
        scheduleEnd := true;
      } else {
        state := WaitingUser;
        scheduleEnd := false;
      }
    }

    /** `onSessionEnd` as the recognizer's handlers run it: the copy they captured when the mic was
        toggled on forwards the transcript and remaining time of that moment, not the current ones. */
    method EndSessionAsWritten() returns (r: SessionRecord)
      requires Valid()
      ensures r.transcript == capturedTranscript && r.timeRemaining == capturedTime
      ensures 0 <= r.timeRemaining <= SessionSeconds
      ensures r.fileName == sessionData.fileName && r.abstractText == sessionData.abstractText
      ensures r.sessionId == sessionData.sessionId && r.mode == sessionData.mode
    {
      r := sessionData.(transcript := capturedTranscript, timeRemaining := capturedTime);
    }

    /** `onSessionEnd` as intended, and as the "Selesaikan Sesi" button (which calls the current
        render's `onSessionEnd`) runs it: the record forwarded to the evaluation page carries the
        transcript and the remaining time as they are now, and the loaded session's other fields
        unchanged. */
    method EndSession() returns (r: SessionRecord)
      requires Valid()
      ensures r.transcript == transcript && r.timeRemaining == timeRemaining
      ensures 0 <= r.timeRemaining <= SessionSeconds
      ensures r.fileName == sessionData.fileName && r.abstractText == sessionData.abstractText
      ensures r.sessionId == sessionData.sessionId && r.mode == sessionData.mode
    {
      r := sessionData.(transcript := transcript, timeRemaining := timeRemaining);
    }
  }

  /** The closing turn: the user answers the sixth prompt, the examiner replies and asks the
      closing prompt, and the session ends. The record the as-written `onSessionEnd` forwards holds
      the transcript and time of the moment the mic was toggled on, while the session's transcript
      has grown by the user's answer, the examiner's reply and the closing prompt. */
  method StaleHandOff(c: SessionController) returns (sent: SessionRecord, current: SessionRecord)
    requires c.Valid() && c.state == WaitingUser && !c.isRecording && c.speechSupported
    requires c.currentQuestionIndex == LastQuestion - 1
    modifies c
    ensures c.state == Ending
    ensures sent.transcript == old(c.transcript) && sent.timeRemaining == old(c.timeRemaining)
    ensures current.transcript == c.transcript && current.timeRemaining == c.timeRemaining
    ensures |current.transcript| == |sent.transcript| + 3
    ensures current.transcript[..|sent.transcript|] == sent.transcript
    ensures current.transcript[|sent.transcript|].speaker == User
    ensures current.transcript[|sent.transcript| + 1] == ChatMessage("r0", Examiner, ReplyText(LastQuestion - 1), 3)
    ensures current.transcript[|sent.transcript| + 2] == ChatMessage("q6", Examiner, MockQuestions[LastQuestion], 4)
  {
    var before := c.transcript;
    var action := c.MicToggle();
    assert c.capturedTranscript == before && c.turnIndex == LastQuestion - 1;
    c.RecognitionStart("a0", 1);
    assert c.TargetIndex() == |before| && c.transcript[..|before|] == before;
    c.RecognitionEnd();
    assert |c.transcript| == |before| + 1 && c.transcript[..|before|] == before;
    assert c.transcript[|before|].speaker == User && c.capturedTranscript == before;
    c.ReplyTimeout("r0", 3);
    var answered := c.transcript;
    var advanceEnds := c.AdvanceTimeout("q6", 4);
    assert !advanceEnds && c.transcript == answered + [ChatMessage("q6", Examiner, MockQuestions[LastQuestion], 4)];
    var promptEnds := c.PromptDone();
    assert promptEnds;
    sent := c.EndSessionAsWritten();
    current := c.EndSession();
  }
}
