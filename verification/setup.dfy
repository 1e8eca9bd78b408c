/**
 * The setup page: it loads the session record handed over in the URL, lets
 * the user pick a mode, runs a microphone test with the browser's speech
 * recognizer, and only lets the session start once the test has heard
 * something.
 *
 * The recognizer's callbacks (`onresult`, `onend`, `onerror`) and the
 * buttons' click handlers are methods of `MicTest`, called when they fire.
 */
module Setup {
  import opened Wrappers
  import opened Speech
  import opened Records

  /** What the `data` query parameter yielded: nothing (absent or empty), text that does not
      decode and parse, or a session record. */
  datatype QueryData = Missing | Malformed | Parsed(record: SessionRecord)

  /** Where a handler sends the browser: nowhere, back to the upload page, or to the session page
      with the record it encodes in the URL. */
  datatype Route = Stay | ToUpload | ToSession(record: SessionRecord)

  const ListeningPrompt: string := "Silakan berbicara..."
  const StartFailedText: string := "Tidak dapat memulai pengenalan suara."
  const ErrorText: string := "Terjadi kesalahan. Coba lagi."

  /** The final chunks in order, each followed by one space; unlike the session page nothing is trimmed. */
  function Finals(rs: seq<SpeechResult>): string
  {
    if rs == [] then ""
    else
      var last := rs[|rs| - 1];
      Finals(rs[..|rs| - 1]) + (if last.isFinal then last.transcript + " " else "")
  }

  /** The text the test shows for a batch of results: final text first, interim text after it. */
  function TestTranscript(rs: seq<SpeechResult>): string {
    Finals(rs) + Interims(rs)
  }

  /** A result that puts at least one character into the test transcript. */
  predicate Audible(r: SpeechResult) {
    r.isFinal || r.transcript != []
  }

  /** Every final chunk is followed by a space, so the final text is empty or ends in a space. */
  lemma {:induction false} FinalsEndInSpace(rs: seq<SpeechResult>)
    ensures Finals(rs) == [] || Finals(rs)[|Finals(rs)| - 1] == ' '
  {
    if rs != [] {
      var last := rs[|rs| - 1];
      if !last.isFinal {
        FinalsEndInSpace(rs[..|rs| - 1]);
      }
    }
  }

  /** The test transcript is non-empty exactly when some visited result is final (even a silent
      final adds its space) or carries interim text. */
  lemma {:induction false} TestTranscriptNonEmpty(rs: seq<SpeechResult>)
    ensures |TestTranscript(rs)| > 0 <==> exists i :: 0 <= i < |rs| && Audible(rs[i])
  {
    if rs != [] {
      var prefix := rs[..|rs| - 1];
      var last := rs[|rs| - 1];
      TestTranscriptNonEmpty(prefix);
      assert |TestTranscript(rs)| == |Finals(prefix)| + |Interims(prefix)|
        + (if last.isFinal then |last.transcript| + 1 else |last.transcript|);
      if exists i :: 0 <= i < |rs| && Audible(rs[i]) {
        var i :| 0 <= i < |rs| && Audible(rs[i]);
        if i < |prefix| {
          assert Audible(prefix[i]);
        }
      }
      if exists i :: 0 <= i < |prefix| && Audible(prefix[i]) {
        var i :| 0 <= i < |prefix| && Audible(prefix[i]);
        assert Audible(rs[i]);
      }
    }
  }

  /** One more visited result extends the final and the interim text by that result's share. */
  lemma TestStep(w: seq<SpeechResult>, x: SpeechResult)
    ensures Finals(w + [x]) == Finals(w) + (if x.isFinal then x.transcript + " " else "")
    ensures Interims(w + [x]) == Interims(w) + (if x.isFinal then "" else x.transcript)
  {
    assert (w + [x])[..|w|] == w;
  }

  /** The loop of `onresult`: visits `results[resultIndex..]` in order (the loop counter `j` stands
      for the source's `i - resultIndex`) and returns the final text followed by the interim text. */
  method ScanTest(results: seq<SpeechResult>, resultIndex: nat) returns (full: string)
    ensures full == TestTranscript(FromIndex(results, resultIndex))
  {
    var final, interim := "", "";
    var pending := FromIndex(results, resultIndex);
    for j := 0 to |pending|
      invariant final == Finals(pending[..j])
      invariant interim == Interims(pending[..j])
    {
      var res := pending[j];
      assert pending[..j + 1] == pending[..j] + [res];
      TestStep(pending[..j], res);
      if res.isFinal {
        final := final + res.transcript + " ";
      } else {
        interim := interim + res.transcript;
      }
    }
    assert pending[..|pending|] == pending;
    full := final + interim;
  }

  class MicTest {
    /** Whether the browser offers `webkitSpeechRecognition`; the page's `browserSupport`, and
        whether a recognizer was created. */
    const hasRecognizer: bool

    var sessionData: Option<SessionRecord>
    var selectedMode: Mode
    var isListening: bool
    var micTestPassed: bool
    var transcript: string

    ghost predicate Valid()
      reads this
    {
      isListening ==> hasRecognizer
    }

    /** The page before its effects: no record, `simulasi` selected, not listening, test not passed. */
    constructor (hasRecognizer: bool)
      ensures Valid() && this.hasRecognizer == hasRecognizer
      ensures sessionData == None && selectedMode == Simulasi
      ensures !isListening && !micTestPassed && transcript == ""
    {
      this.hasRecognizer := hasRecognizer;
      sessionData := None;
      selectedMode := Simulasi;
      isListening := false;
      micTestPassed := false;
      transcript := "";
    }

    /** The load effect: a parsed record is kept; otherwise the page redirects to the upload page
        and keeps no record. */
    method Load(q: QueryData) returns (route: Route)
      requires Valid()
      modifies this`sessionData
      ensures Valid()
      ensures route == ToUpload <==> !q.Parsed?
      ensures route == Stay <==> q.Parsed?
      ensures q.Parsed? ==> sessionData == Some(q.record)
      ensures !q.Parsed? ==> sessionData == old(sessionData)
    {
      if q.Parsed? {
        sessionData := Some(q.record);
        route := Stay;
      } else {
        route := ToUpload;
      }
    }

    /** A click on a mode radio button. */
    method SelectMode(m: Mode)
      requires Valid()
      modifies this`selectedMode
      ensures Valid() && selectedMode == m
    {
      selectedMode := m;
    }

    /** "Mulai Tes" is enabled when the browser can recognize speech and no test is running: never
        together with "Berhenti", and with a recognizer exactly when "Berhenti" is not. Exactly then
        does `StartListening` start a test. */
    function StartTestEnabled(): (r: bool)
      reads this
      requires Valid()
      ensures !(r && StopTestEnabled())
      ensures hasRecognizer ==> (r <==> !StopTestEnabled())
      ensures !hasRecognizer ==> !r
    {
      !isListening && hasRecognizer
    }

    /** "Berhenti" is enabled exactly while a test is running. */
    function StopTestEnabled(): (r: bool)
      reads this
      requires Valid()
      ensures r <==> isListening
    {
      isListening && hasRecognizer
    }

    /** `handleStartListening`: with a recognizer and no test running, the test restarts from
        "not passed" with the listening prompt shown; if `start()` throws (`startFails`) the
        failure text is shown and nothing is listening. Otherwise nothing changes. */
    method StartListening(startFails: bool)
      requires Valid()
      modifies this`transcript, this`micTestPassed, this`isListening
      ensures Valid()
      ensures !old(StartTestEnabled()) ==> unchanged(this)
      ensures old(StartTestEnabled()) ==>
        && !micTestPassed
        && isListening == !startFails
        && transcript == (if startFails then StartFailedText else ListeningPrompt)
    {
      if hasRecognizer && !isListening {
        transcript := ListeningPrompt;
        micTestPassed := false;
        if startFails {
          transcript := StartFailedText;
          isListening := false;
        } else {
          isListening := true;
        }
      }
    }

    /** `handleStopListening`: stops a running test; `stopRequested` says whether `stop()` was called. */
    method StopListening() returns (stopRequested: bool)
      requires Valid()
      modifies this`isListening
      ensures Valid() && !isListening
      ensures stopRequested <==> old(isListening)
    {
      stopRequested := hasRecognizer && isListening;
      if stopRequested {
        isListening := false;
      }
    }

    /** `onresult`: the transcript shows the batch's text, and the test passes once a batch puts
        any character there; a batch that shows nothing never takes the pass back. */
    method OnResult(results: seq<SpeechResult>, resultIndex: nat)
      requires Valid()
      modifies this`transcript, this`micTestPassed
      ensures Valid()
      ensures transcript == TestTranscript(FromIndex(results, resultIndex))
      ensures micTestPassed <==> old(micTestPassed) || |transcript| > 0
    {
      var full := ScanTest(results, resultIndex);
      transcript := full;
      if |full| > 0 {
        micTestPassed := true;
      }
    }

    /** `onend`: the test stops listening; the transcript and the verdict stay. */
    method OnEnd()
      requires Valid()
      modifies this`isListening
      ensures Valid() && !isListening
    {
      isListening := false;
    }

    /** `onerror`: the test stops listening and shows the error text; the verdict stays. */
    method OnError()
      requires Valid()
      modifies this`isListening, this`transcript
      ensures Valid() && !isListening && transcript == ErrorText
    {
      isListening := false;
      transcript := ErrorText;
    }

    /** `onBeginSimulation`: with a record loaded, go to the session page with that record and the
        selected mode; without one, stay. */
    method BeginSimulation() returns (route: Route)
      requires Valid()
      ensures route.ToSession? <==> sessionData.Some?
      ensures route != ToUpload
      ensures route.ToSession? ==>
        && route.record.mode == Some(selectedMode)
        && route.record.fileName == sessionData.value.fileName
        && route.record.abstractText == sessionData.value.abstractText
        && route.record.sessionId == sessionData.value.sessionId
        && route.record.transcript == sessionData.value.transcript
        && route.record.timeRemaining == sessionData.value.timeRemaining
    {
      if sessionData.Some? {
        route := ToSession(sessionData.value.(mode := Some(selectedMode)));
      } else {
        route := Stay;
      }
    }

    /** A click on "MULAI SESI SIMULASI", which is disabled until the microphone test passed. */
    method ClickBegin() returns (route: Route)
      requires Valid()
      ensures route.ToSession? <==> micTestPassed && sessionData.Some?
      ensures route.ToSession? ==> route.record.mode == Some(selectedMode)
    {
      if micTestPassed {
        route := BeginSimulation();
      } else {
        route := Stay;
      }
    }
  }
}
