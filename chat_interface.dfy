/**
 * The incident chat: the user describes an incident to the assistant, with
 * optional images and an incident date, and then asks for a structured
 * report built from the conversation. The model call, the browser's file
 * reader and the clock are outside the model: each call is given by its
 * outcome, each upload by its data URL, each timestamp as a parameter.
 */
module ChatInterface {
  import opened Wrappers
  import opened Types
  import opened Seqs
  import opened Strings
  import GeminiService

  /** The assistant's opening message. */
  const Greeting := "Hello, I'm here to help you document a co-parenting incident. To start, please describe what happened."

  /** The reply shown when the chat call throws. */
  const SendFailure := "Sorry, an error occurred."

  /** The reply shown when no report could be generated. */
  const ReportFailure := "I'm sorry, I was unable to generate a report from our conversation. Please try adding more details and generating it again."

  /** A file picked for upload: its name, MIME type and base64 payload. */
  datatype UploadedFile = UploadedFile(name: string, mimeType: string, data: string)

  // ---------------------------------------------------------------------
  // Images
  // ---------------------------------------------------------------------

  /** The data URL of an image: `data:<mime>;base64,<data>`. */
  function DataUrl(img: ChatImage): (url: string)
    ensures StartsWith(url, "data:")
    ensures EndsWith(url, img.data)
  {
    "data:" + img.mimeType + ";base64," + img.data
  }

  /** `fileToBase64`: the second comma-separated piece of a data URL, or `None` (`undefined`) when there is none. */
  function Base64Payload(dataUrl: string): (r: Option<string>)
    ensures r.Some? ==> ',' !in r.value
  {
    var pieces := Split(dataUrl, ',');
    if |pieces| > 1 then Some(pieces[1]) else None
  }

  /** Reading back the payload of an image's data URL gives the image data, when neither part holds a comma. */
  lemma {:induction false} PayloadOfDataUrl(img: ChatImage)
    requires ',' !in img.mimeType && ',' !in img.data
    ensures Base64Payload(DataUrl(img)) == Some(img.data)
  {
    var head := "data:" + img.mimeType + ";base64";
    assert ',' !in head by {
      assert head == "data:" + img.mimeType + ";base64";
    }
    assert DataUrl(img) == head + [','] + img.data;
    SplitAfter(head, ',', img.data);
    SplitNone(img.data, ',');
  }

  /** The images a message carries, in order; a message without `images` carries none. */
  function ImagesOf(m: ChatMessage): seq<ChatImage> {
    m.images.GetOr([])
  }

  /** Every image of the conversation as a data URL, message by message, in order. */
  function ChatImageUrls(messages: seq<ChatMessage>): (r: seq<string>)
    ensures messages == [] ==> r == []
  {
    if messages == [] then []
    else Map(DataUrl, ImagesOf(messages[0])) + ChatImageUrls(messages[1..])
  }

  /** Flattening keeps order: the images of a longer conversation extend those of its start. */
  lemma {:induction false} ChatImageUrlsAppend(a: seq<ChatMessage>, b: seq<ChatMessage>)
    ensures ChatImageUrls(a + b) == ChatImageUrls(a) + ChatImageUrls(b)
  {
    if a == [] {
      assert a + b == b;
    } else {
      assert (a + b)[0] == a[0];
      assert (a + b)[1..] == a[1..] + b;
      ChatImageUrlsAppend(a[1..], b);
    }
  }

  /** A message's own images, as data URLs, are exactly what it adds to the flattened list. */
  lemma {:induction false} ChatImageUrlsOfOne(m: ChatMessage)
    ensures ChatImageUrls([m]) == Map(DataUrl, ImagesOf(m))
  {
    assert [m][1..] == [];
  }

  // ---------------------------------------------------------------------
  // Sending
  // ---------------------------------------------------------------------

  predicate IsUserMessage(m: ChatMessage) {
    m.role == User
  }

  /** No message of the conversation is the user's yet. */
  function IsFirstUserMessage(messages: seq<ChatMessage>): (b: bool)
    ensures b <==> forall i :: 0 <= i < |messages| ==> messages[i].role != User
  {
    var sent := Filter(messages, IsUserMessage);
    assert forall i :: 0 <= i < |messages| && messages[i].role == User ==> messages[i] in sent;
    |sent| == 0
  }

  /** The line that dates the first user message. */
  function DatePrefix(dateLabel: string): (p: string)
    ensures StartsWith(p, "(Incident Date: ") && EndsWith(p, ")\n\n")
  {
    "(Incident Date: " + dateLabel + ")\n\n"
  }

  /** The text sent for the typed input: the first user message of a dated chat is prefixed with the incident date. */
  function Outgoing(messages: seq<ChatMessage>, dateLabel: Option<string>, input: string): (text: string)
    ensures IsFirstUserMessage(messages) && dateLabel.Some? ==> text == DatePrefix(dateLabel.value) + input
    ensures !(IsFirstUserMessage(messages) && dateLabel.Some?) ==> text == input
  {
    if IsFirstUserMessage(messages) && dateLabel.Some? then DatePrefix(dateLabel.value) + input
    else input
  }

  /** Once the user has spoken, later messages are sent as typed. */
  lemma LaterMessagesUnprefixed(messages: seq<ChatMessage>, user: ChatMessage, rest: seq<ChatMessage>, dateLabel: Option<string>, input: string)
    requires user.role == User
    ensures Outgoing(messages + [user] + rest, dateLabel, input) == input
  {
    var all := messages + [user] + rest;
    assert all[|messages|] == user;
  }

  /** The assistant's answer to a send: the reply text, or the fixed apology when the call throws. */
  function ReplyMessage(outcome: GeminiService.CallOutcome): (m: ChatMessage)
    ensures m.role == Model && m.images.None?
    ensures m.content == if outcome.Replied? then outcome.text else SendFailure
  {
    match outcome
    case Replied(text) => ChatMessage(Model, text, None)
    case Threw(_) => ChatMessage(Model, SendFailure, None)
  }

  function ImageOfFile(f: UploadedFile): ChatImage {
    ChatImage(f.mimeType, f.data)
  }

  /** The "Generate Incident Report" button is offered once the conversation holds more than two messages. */
  predicate ReportOffered(messages: seq<ChatMessage>) {
    |messages| > 2
  }

  /** The greeting alone does not offer a report; the first exchange does. */
  lemma ReportOfferedAfterFirstExchange(user: ChatMessage, reply: ChatMessage)
    ensures !ReportOffered([ChatMessage(Model, Greeting, None)])
    ensures ReportOffered([ChatMessage(Model, Greeting, None), user, reply])
  {
  }

  /** The report assembled from the generator's data, the conversation, the clock and the creation instant. */
  function AssembleReport(data: GeneratedReportData, messages: seq<ChatMessage>, now: nat, createdAt: Instant): (r: Report)
    ensures StartsWith(r.id, "rep_") && r.createdAt == createdAt
    ensures r.content == data.content && r.category == data.category && r.tags == data.tags
    ensures r.legalContext == Some(data.legalContext.GetOr(""))
    ensures r.images == ChatImageUrls(messages)
  {
    Report("rep_" + NatToString(now), createdAt, data.content, data.category, data.tags,
           Some(data.legalContext.GetOr("")), ChatImageUrls(messages))
  }

  /**
   * The report keeps the generator's data: reading it back gives that data,
   * with a missing legal context stored as the empty string.
   */
  lemma AssembledReportKeepsData(data: GeneratedReportData, messages: seq<ChatMessage>, now: nat, createdAt: Instant)
    ensures ReportData(AssembleReport(data, messages, now, createdAt)) == data.(legalContext := Some(data.legalContext.GetOr("")))
    ensures data.legalContext.Some? ==> ReportData(AssembleReport(data, messages, now, createdAt)) == data
  {
  }

  // ---------------------------------------------------------------------
  // The chat's state and its transitions
  // ---------------------------------------------------------------------

  datatype ChatState = ChatState(
    messages: seq<ChatMessage>,
    input: string,
    isLoading: bool,
    isGeneratingReport: bool,
    uploadedFiles: seq<UploadedFile>,
    selectedDate: Option<Day>,
    isCalendarOpen: bool)

  /** A new chat holds the greeting alone, dated today. */
  function InitialChat(today: Day): (s: ChatState)
    ensures |s.messages| == 1 && s.messages[0].role == Model && s.messages[0].content == Greeting
    ensures s.input == [] && s.uploadedFiles == [] && s.selectedDate == Some(today)
    ensures !ReportOffered(s.messages)
  {
    ChatState([ChatMessage(Model, Greeting, None)], [], false, false, [], Some(today), false)
  }

  /** Sending is refused when the input is blank and nothing is uploaded. */
  predicate NothingToSend(s: ChatState) {
    TrimsToEmpty(s.input) && |s.uploadedFiles| == 0
  }

  /**
   * The user's message for a send: the outgoing text (dated when it is the
   * first user message and a date is selected) with the uploads as images.
   * `dateLabel` is the selected date as the browser's locale prints it.
   */
  function UserMessage(s: ChatState, dateLabel: string): (m: ChatMessage)
    ensures m.role == User
    ensures m.content == Outgoing(s.messages, if s.selectedDate.Some? then Some(dateLabel) else None, s.input)
    ensures m.images == Some(Map(ImageOfFile, s.uploadedFiles))
  {
    ChatMessage(User, Outgoing(s.messages, if s.selectedDate.Some? then Some(dateLabel) else None, s.input),
                Some(Map(ImageOfFile, s.uploadedFiles)))
  }

  /** A send: the user's message and the answer are appended, the input and uploads cleared, loading over. */
  function Sent(s: ChatState, dateLabel: string, outcome: GeminiService.CallOutcome): ChatState
  {
    if NothingToSend(s) then s
    else s.(messages := s.messages + [UserMessage(s, dateLabel), ReplyMessage(outcome)],
            input := [], uploadedFiles := [], isLoading := false)
  }

  /** After the first send of a chat that is dated, the user's first message carries the date. */
  lemma {:induction false} FirstSendDated(today: Day, input: string, files: seq<UploadedFile>, dateLabel: string, outcome: GeminiService.CallOutcome)
    requires !IsBlank(input)
    ensures var s := InitialChat(today).(input := input, uploadedFiles := files);
            var t := Sent(s, dateLabel, outcome);
            && |t.messages| == 3 && ReportOffered(t.messages)
            && t.messages[1].content == DatePrefix(dateLabel) + input
  {
    var s := InitialChat(today).(input := input, uploadedFiles := files);
    assert s.messages[0].role == Model;
    assert IsFirstUserMessage(s.messages);
  }

  /** A second send of the same chat goes out as typed. */
  lemma {:induction false} SecondSendUndated(s: ChatState, dateLabel: string, outcome: GeminiService.CallOutcome, next: string, dateLabel2: string)
    requires !NothingToSend(s)
    ensures var t := Sent(s, dateLabel, outcome).(input := next);
            UserMessage(t, dateLabel2).content == next
  {
    var t := Sent(s, dateLabel, outcome).(input := next);
    LaterMessagesUnprefixed(s.messages, UserMessage(s, dateLabel), [ReplyMessage(outcome)], if t.selectedDate.Some? then Some(dateLabel2) else None, next);
    assert t.messages == s.messages + [UserMessage(s, dateLabel)] + [ReplyMessage(outcome)];
  }

  /**
   * Generating the report from what the report generator returned. With
   * data, a report carrying the chat's images
   * is handed over and the conversation is unchanged; without, nothing is
   * handed over and the apology is appended.
   */
  function ReportRequested(s: ChatState, data: Option<GeneratedReportData>, now: nat, createdAt: Instant): (r: (ChatState, Option<Report>))
    ensures data.Some? ==> r.1 == Some(AssembleReport(data.value, s.messages, now, createdAt)) && r.0.messages == s.messages
    ensures data.None? ==> r.1.None? && r.0.messages == s.messages + [ChatMessage(Model, ReportFailure, None)]
    ensures r.0 == s.(messages := r.0.messages, isGeneratingReport := false)
  {
    if data.Some? then (s.(isGeneratingReport := false), Some(AssembleReport(data.value, s.messages, now, createdAt)))
    else (s.(messages := s.messages + [ChatMessage(Model, ReportFailure, None)], isGeneratingReport := false), None)
  }

  class ChatSession {
    var messages: seq<ChatMessage>
    var input: string
    var isLoading: bool
    var isGeneratingReport: bool
    var uploadedFiles: seq<UploadedFile>
    var selectedDate: Option<Day>
    var isCalendarOpen: bool

    function Snapshot(): ChatState
      reads this
    {
      ChatState(messages, input, isLoading, isGeneratingReport, uploadedFiles, selectedDate, isCalendarOpen)
    }

    constructor (today: Day)
      ensures Snapshot() == InitialChat(today)
    {
      messages := [ChatMessage(Model, Greeting, None)];
      input := [];
      isLoading := false;
      isGeneratingReport := false;
      uploadedFiles := [];
      selectedDate := Some(today);
      isCalendarOpen := false;
    }

    /** Picking a date in the calendar selects it and closes the calendar. */
    method SelectDate(date: Day)
      modifies this
      ensures Snapshot() == old(Snapshot()).(selectedDate := Some(date), isCalendarOpen := false)
    {
      selectedDate := Some(date);
      isCalendarOpen := false;
    }

    /** Newly read files are appended to the pending uploads. */
    method AddFiles(files: seq<UploadedFile>)
      modifies this
      ensures Snapshot() == old(Snapshot()).(uploadedFiles := old(uploadedFiles) + files)
    {
      uploadedFiles := uploadedFiles + files;
    }

    /** Replaces the whole state at once. */
    method Load(st: ChatState)
      modifies this
      ensures Snapshot() == st
    {
      messages := st.messages;
      input := st.input;
      isLoading := st.isLoading;
      isGeneratingReport := st.isGeneratingReport;
      uploadedFiles := st.uploadedFiles;
      selectedDate := st.selectedDate;
      isCalendarOpen := st.isCalendarOpen;
    }

    /**
     * `handleSendMessage`; `sent` is the conversation handed to the chat
     * call, `None` when the guard refuses. The user's message is shown and
     * the input cleared before the call; the answer follows it.
     */
    method SendMessage(dateLabel: string, outcome: GeminiService.CallOutcome) returns (sent: Option<seq<ChatMessage>>)
      modifies this
      ensures Snapshot() == Sent(old(Snapshot()), dateLabel, outcome)
      ensures sent == if NothingToSend(old(Snapshot())) then None
                      else Some(old(messages) + [UserMessage(old(Snapshot()), dateLabel)])
    {
      var before := Snapshot();
      if TrimsToEmpty(input) && |uploadedFiles| == 0 {
        return None;
      }
      var userMessage := UserMessage(before, dateLabel);
      var newMessages := before.messages + [userMessage];
      Load(before.(messages := newMessages, input := [], uploadedFiles := [], isLoading := true));
      sent := Some(newMessages);
      var reply := ReplyMessage(outcome);
      assert newMessages + [reply] == before.messages + [userMessage, reply];
      Load(before.(messages := newMessages + [reply], input := [], uploadedFiles := [], isLoading := false));
    }

    /**
     * `handleGenerateReport`, given what the report generator resolved to
     * (`GeminiService.ReportFromReply`); `report` is what reaches
     * `onReportGenerated`.
     */
    method GenerateReport(reportData: Option<GeneratedReportData>, now: nat, createdAt: Instant)
      returns (report: Option<Report>)
      modifies this
      ensures (Snapshot(), report) == ReportRequested(old(Snapshot()), reportData, now, createdAt)
    {
      isGeneratingReport := true;
      if reportData.Some? {
        report := Some(AssembleReport(reportData.value, messages, now, createdAt));
      } else {
        report := None;
        messages := messages + [ChatMessage(Model, ReportFailure, None)];
      }
      isGeneratingReport := false;
    }
  }
}
