/** Notifications as src/models.rs declares them and src/db.rs stores them. */
module Models {
  import opened Prelude

  datatype QuestionType =
    | YesNo | Multichoice | FreeText | Numeric | File | Diff | Ack | PickList | Schedule | Form | Approval

  datatype NotificationStatus = Open | Answered | Cancelled | Muted | TimedOut | Dismissed

  /** The text every writer binds: the Debug name in lower case. */
  function StatusText(s: NotificationStatus): string {
    match s
    case Open => "open"
    case Answered => "answered"
    case Cancelled => "cancelled"
    case Muted => "muted"
    case TimedOut => "timedout"
    case Dismissed => "dismissed"
  }

  /** What a reader makes of the text: anything it does not know is open. */
  function ReadStatus(text: string): NotificationStatus {
    if text == "answered" then Answered
    else if text == "cancelled" then Cancelled
    else if text == "muted" then Muted
    else if text == "timed_out" then TimedOut
    else if text == "dismissed" then Dismissed
    else Open
  }

  /** A status survives a write and a read, except TimedOut, which comes back open. */
  lemma StatusRoundTrip(s: NotificationStatus)
    ensures ReadStatus(StatusText(s)) == s <==> s != TimedOut
    ensures ReadStatus(StatusText(TimedOut)) == Open && StatusText(TimedOut) != StatusText(Open)
  {
  }

  /** A question of a form: only its key matters here. */
  datatype SubQuestion = SubQuestion(key: string, shape: string)

  /** The columns the handlers and the console read. A row of the table holds
      the status as text, S = string; a loaded notification as a status. Times
      are in milliseconds on one clock. */
  datatype Notification<+S> = Notification(
    id: string,
    agentName: string,
    src: string,
    question: string,
    questionType: QuestionType,
    urgency: int,
    deadline: Option<int>,
    status: S,
    createdAt: int,
    answeredAt: Option<int>,
    answer: Option<string>,
    answerLabel: Option<string>,
    callerId: Option<string>,
    snoozeUntil: Option<int>,
    note: Option<string>,
    subQuestions: seq<SubQuestion>,
    renews: Option<string>,
    once: Option<bool>)

  type Row = Notification<string>
  type Loaded = Notification<NotificationStatus>

  function WithStatus<S, T>(n: Notification<S>, status: T): Notification<T> {
    Notification(n.id, n.agentName, n.src, n.question, n.questionType, n.urgency, n.deadline, status, n.createdAt,
                 n.answeredAt,
                 n.answer, n.answerLabel, n.callerId, n.snoozeUntil, n.note, n.subQuestions, n.renews, n.once)
  }

  /** row_to_notification. */
  function Load(row: Row): Loaded {
    WithStatus(row, ReadStatus(row.status))
  }

  /** What a caller that waits for an answer receives. */
  datatype AnswerEnvelope<+G> = AnswerEnvelope(
    id: string,
    answer: Option<string>,
    answerLabel: Option<string>,
    answeredAt: Option<int>,
    via: string,
    note: Option<string>,
    grant: Option<G>,
    once: Option<bool>)
}
