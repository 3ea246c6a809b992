/** What the handlers do to the world outside the dialog session: actions
    recorded by the action log, messages answered or sent, files downloaded,
    requests handed to the generation service and feedback ratings stored.
    Handlers return these in the order they happen. */
module Effects {

  import opened Enums
  import opened GenAI

  /** The fixed replies of the handlers; their wording is not modelled. */
  datatype Notice =
    | NotTeacher(ownerName: string, ownerLink: string)  // with a contact button for the owner
    | VoiceTooLarge
    | NotVoice

  datatype Effect =
    | LoggedAction(action: Action)
    | Answered(notice: Notice)
    | SentMessage(chatId: int, text: string)
    | Downloaded(fileId: string)
    | TranscriptRequested(upload: Upload, transcriptRequest: TranscriptRequest)
    | FeedbackRequested(feedbackRequest: FeedbackRequest)
    | FeedbackStored(like: bool)
}
