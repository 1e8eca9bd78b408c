/**
 * The part of a browser `SpeechRecognitionEvent` the pages read: for each
 * result, whether it is final and the transcript of its first alternative.
 */
module Speech {

  datatype SpeechResult = SpeechResult(isFinal: bool, transcript: string)

  /** The results a handler visits: `results[resultIndex..]`, or none when the index is past the end. */
  function FromIndex(results: seq<SpeechResult>, resultIndex: nat): (r: seq<SpeechResult>)
    ensures resultIndex <= |results| ==> r == results[resultIndex..]
    ensures resultIndex > |results| ==> r == []
  {
    if resultIndex <= |results| then results[resultIndex..] else []
  }

  /** The interim (non-final) chunks joined in order, as both pages accumulate them. */
  function Interims(rs: seq<SpeechResult>): string
  {
    if rs == [] then ""
    else
      var last := rs[|rs| - 1];
      Interims(rs[..|rs| - 1]) + (if last.isFinal then "" else last.transcript)
  }

  /** Interim text of two batches is the interim text of each, joined. */
  lemma {:induction false} InterimsConcat(a: seq<SpeechResult>, b: seq<SpeechResult>)
    ensures Interims(a + b) == Interims(a) + Interims(b)
  {
    if b != [] {
      assert (a + b)[..|a + b| - 1] == a + b[..|b| - 1];
      InterimsConcat(a, b[..|b| - 1]);
    } else {
      assert a + b == a;
    }
  }
}
