/**
 * The session record the pages hand to one another, and the transcript
 * entries it carries. Identifiers (`uuidv4`) and timestamps (`new Date()`)
 * are opaque values supplied by the caller.
 */
module Records {
  import opened Wrappers

  datatype Mode = Demo | Simulasi

  /** `"dosen"` (the examiner) or `"user"`. */
  datatype Speaker = Examiner | User

  datatype ChatMessage = ChatMessage(id: string, speaker: Speaker, text: string, timestamp: int)

  /** `mode` is `None` when the record (as parsed on the setup page) has no mode yet. */
  datatype SessionRecord = SessionRecord(
    fileName: string,
    abstractText: string,
    sessionId: string,
    mode: Option<Mode>,
    transcript: seq<ChatMessage>,
    timeRemaining: int)
}
