/**
 Codex app-server frames as the pinned reader sees them
 (crates/kaleido-adapter-codex/src/transcript.rs, decode.rs).

 A payload is its values at the pinned paths: a path that is absent or null has no entry.
 */
module CodexWire {
  import opened Prelude
  import opened Canonical

  datatype Direction = ClientToServer | ServerToClient

  /** The pinned paths this slice reads. */
  datatype Purpose =
    | SessionThreadId | SessionProjectRoot | SessionStartedThreadId
    | TurnResponseTurnId | TurnResponseStatus
    | TurnNotificationThreadId | TurnNotificationTurnId | TurnNotificationStatus | TurnNotificationItemsView
    | TurnNotificationStartedAt | TurnNotificationCompletedAt | TurnNotificationError
    | ThreadStatusThreadId | ThreadStatusType
    | ItemLifecycleThreadId | ItemLifecycleTurnId | ItemIdentifier | ItemType | ItemStartedAt | ItemCompletedAt
    | UserMessageContent | UserMessageContentText | AgentMessageText | AgentMessagePhase
    | ReasoningSummary | ReasoningContent
    | FileChangeStatus | FileChangeEntries | FileChangeEntryPath | FileChangeEntryKind | FileChangeEntryDiff
    | DeltaThreadId | DeltaTurnId | DeltaItemId | DeltaText
    | ApprovalThreadId | ApprovalTurnId | ApprovalItemId | ApprovalStartedAt | ApprovalReason | ApprovalDecision

  type Fields = map<Purpose, Node>

  datatype Node = Text(text: string) | Integer(value: int) | List(elements: seq<Element>) | OtherNode

  /** An array element: its text when it is a string, its pinned values when it is an object. */
  datatype Element = Element(text: Option<string>, fields: map<Purpose, Node>)

  datatype Frame = Frame(
    direction: Direction,
    offset: int,
    method_: Option<string>,
    id: Option<int>,
    hasError: bool,
    fields: Fields)

  datatype CodexError =
    | PointerUnresolved(purpose: Purpose)
    | PointerTypeMismatch(purpose: Purpose)
    | UnmodelledEnumeration(purpose: Purpose)
    | UnknownSession
    | ControlEvidenceUnavailable
    | LocalAttentionAnswerMismatch
    | InvalidExternalAnswerEvidence

  // ------------------------------------------------------------------ pinned reads

  function OptionalText(f: Fields, p: Purpose): Result<Option<string>, CodexError> {
    if p !in f then Ok(None)
    else if f[p].Text? then Ok(Some(f[p].text))
    else Err(PointerTypeMismatch(p))
  }

  function ReadText(f: Fields, p: Purpose): Result<string, CodexError> {
    var found :- OptionalText(f, p);
    if found.Some? then Ok(found.value) else Err(PointerUnresolved(p))
  }

  function OptionalInteger(f: Fields, p: Purpose): Result<Option<int>, CodexError> {
    if p !in f then Ok(None)
    else if f[p].Integer? then Ok(Some(f[p].value))
    else Err(PointerTypeMismatch(p))
  }

  function ReadInteger(f: Fields, p: Purpose): Result<int, CodexError> {
    var found :- OptionalInteger(f, p);
    if found.Some? then Ok(found.value) else Err(PointerUnresolved(p))
  }

  /** A missing array is an error on a required path and empty on an optional one. */
  function ReadArray(f: Fields, p: Purpose, required: bool): Result<seq<Element>, CodexError> {
    if p !in f then (if required then Err(PointerUnresolved(p)) else Ok([]))
    else if f[p].List? then Ok(f[p].elements)
    else Err(PointerTypeMismatch(p))
  }

  function JoinTexts(elements: seq<Element>, p: Purpose): Result<string, CodexError> {
    if elements == [] then Ok("")
    else if elements[0].text.None? then Err(PointerTypeMismatch(p))
    else if |elements| == 1 then Ok(elements[0].text.value)
    else
      var rest :- JoinTexts(elements[1..], p);
      Ok(elements[0].text.value + "\n" + rest)
  }

  function ConcatParts(elements: seq<Element>): Result<string, CodexError> {
    if elements == [] then Ok("")
    else
      var fragment :- OptionalText(elements[0].fields, UserMessageContentText);
      var rest :- ConcatParts(elements[1..]);
      Ok((if fragment.Some? then fragment.value else "") + rest)
  }

  // ------------------------------------------------------------------ closed enumerations

  const APPROVAL_METHOD := "item/fileChange/requestApproval"
  const APPROVAL_DECISIONS: seq<string> := ["accept", "acceptForSession", "decline", "cancel"]
  const DECODED_ITEM_KINDS: seq<string> := ["userMessage", "agentMessage", "reasoning", "fileChange"]

  predicate Decodable(kind: string) { kind in DECODED_ITEM_KINDS }

  function TurnStatusOf(raw: string, p: Purpose): Result<TurnStatus, CodexError> {
    if raw == "inProgress" then Ok(TurnRunning)
    else if raw == "completed" then Ok(TurnCompleted)
    else if raw == "failed" then Ok(TurnFailed)
    else if raw == "interrupted" then Ok(TurnCancelled)
    else Err(UnmodelledEnumeration(p))
  }

  function ItemStatusOf(raw: string): Result<ItemStatus, CodexError> {
    if raw == "inProgress" then Ok(InProgress)
    else if raw == "completed" then Ok(ItemCompleted)
    else if raw == "declined" then Ok(Declined)
    else if raw == "failed" then Ok(ItemFailed)
    else Err(UnmodelledEnumeration(FileChangeStatus))
  }

  function SessionStatusOf(raw: string): Result<SessionStatus, CodexError> {
    if raw == "active" then Ok(Running)
    else if raw == "idle" then Ok(Idle)
    else if raw == "notLoaded" then Ok(Offline)
    else if raw == "systemError" then Ok(SessionFailed)
    else Err(UnmodelledEnumeration(ThreadStatusType))
  }

  function PhaseOf(raw: Option<string>): Result<MessagePhase, CodexError> {
    if raw.None? || raw.value == "commentary" then Ok(Commentary)
    else if raw.value == "final_answer" then Ok(FinalAnswer)
    else Err(UnmodelledEnumeration(AgentMessagePhase))
  }

  function ChangeKindOf(raw: string): Result<FileChangeKind, CodexError> {
    if raw == "add" then Ok(Add)
    else if raw == "update" then Ok(Modify)
    else if raw == "delete" then Ok(Delete)
    else Err(UnmodelledEnumeration(FileChangeEntryKind))
  }

  function LifecycleStatus(started: bool): ItemStatus {
    if started then InProgress else ItemCompleted
  }

  function SecondsToMillis(seconds: int): int { Saturate(seconds * 1000) }

  function TerminalTimestamp(status: TurnStatus, at: int): Option<int> {
    if status.IsTerminal() then Some(at) else None
  }

  // ------------------------------------------------------------------ decoded messages

  datatype TurnCreated = TurnCreated(turn: string, status: TurnStatus)

  function DecodeTurnCreated(f: Fields): Result<TurnCreated, CodexError> {
    var turn :- ReadText(f, TurnResponseTurnId);
    var raw :- ReadText(f, TurnResponseStatus);
    var status :- TurnStatusOf(raw, TurnResponseStatus);
    Ok(TurnCreated(turn, status))
  }

  /** The status label is decoded only after the turn has been bound. */
  datatype TurnNotice = TurnNotice(
    thread: string, turn: string, status: string,
    startedAt: Option<int>, completedAt: Option<int>, hasError: bool)

  function DecodeTurnNotice(f: Fields): Result<TurnNotice, CodexError> {
    var thread :- ReadText(f, TurnNotificationThreadId);
    var turn :- ReadText(f, TurnNotificationTurnId);
    var status :- ReadText(f, TurnNotificationStatus);
    var _ :- ReadText(f, TurnNotificationItemsView);
    var startedAt :- OptionalInteger(f, TurnNotificationStartedAt);
    var completedAt :- OptionalInteger(f, TurnNotificationCompletedAt);
    Ok(TurnNotice(thread, turn, status, startedAt, completedAt, TurnNotificationError in f))
  }

  datatype ItemNotice = ItemNotice(thread: string, turn: string, item: string, kind: string, observedAt: int)

  function DecodeItemNotice(f: Fields, started: bool): Result<ItemNotice, CodexError> {
    var thread :- ReadText(f, ItemLifecycleThreadId);
    var turn :- ReadText(f, ItemLifecycleTurnId);
    var item :- ReadText(f, ItemIdentifier);
    var kind :- ReadText(f, ItemType);
    var observedAt :- ReadInteger(f, if started then ItemStartedAt else ItemCompletedAt);
    Ok(ItemNotice(thread, turn, item, kind, observedAt))
  }

  datatype Delta = Delta(thread: string, item: string, fragment: string)

  function DecodeDelta(f: Fields): Result<Delta, CodexError> {
    var thread :- ReadText(f, DeltaThreadId);
    var _ :- ReadText(f, DeltaTurnId);
    var item :- ReadText(f, DeltaItemId);
    var fragment :- ReadText(f, DeltaText);
    Ok(Delta(thread, item, fragment))
  }

  datatype ApprovalNotice = ApprovalNotice(
    thread: string, turn: string, item: string, startedAt: int, reason: Option<string>)

  function DecodeApproval(f: Fields): Result<ApprovalNotice, CodexError> {
    var thread :- ReadText(f, ApprovalThreadId);
    var turn :- ReadText(f, ApprovalTurnId);
    var item :- ReadText(f, ApprovalItemId);
    var startedAt :- ReadInteger(f, ApprovalStartedAt);
    var reason :- OptionalText(f, ApprovalReason);
    Ok(ApprovalNotice(thread, turn, item, startedAt, reason))
  }

  function DecodeDecision(f: Fields): Result<string, CodexError> {
    var decision :- ReadText(f, ApprovalDecision);
    if decision in APPROVAL_DECISIONS then Ok(decision) else Err(UnmodelledEnumeration(ApprovalDecision))
  }

  function DecodeChanges(elements: seq<Element>): Result<seq<FileChange>, CodexError> {
    if elements == [] then Ok([])
    else
      var path :- ReadText(elements[0].fields, FileChangeEntryPath);
      var rawKind :- ReadText(elements[0].fields, FileChangeEntryKind);
      var diff :- OptionalText(elements[0].fields, FileChangeEntryDiff);
      var kind :- ChangeKindOf(rawKind);
      var rest :- DecodeChanges(elements[1..]);
      Ok([FileChange(ContentRef(FilePath, path), kind,
                     if diff.Some? then Some(ContentRef(UnifiedDiff, diff.value)) else None)] + rest)
  }

  datatype DecodedBody = DecodedBody(body: ItemBody, status: ItemStatus, agentText: map<ItemId, string>)

  /**
   Decodes an item body. An agent message that is still streaming shows the text accumulated so far;
   once completed the runtime's own text replaces it.
   */
  function DecodeBody(f: Fields, kind: string, id: ItemId, started: bool, agentText: map<ItemId, string>)
    : Result<DecodedBody, CodexError>
  {
    if kind == "userMessage" then
      var parts :- ReadArray(f, UserMessageContent, true);
      var text :- ConcatParts(parts);
      Ok(DecodedBody(UserMessage(ContentRef(PlainText, text)), LifecycleStatus(started), agentText))
    else if kind == "agentMessage" then
      var read :- ReadText(f, AgentMessageText);
      var rawPhase :- OptionalText(f, AgentMessagePhase);
      var phase :- PhaseOf(rawPhase);
      var text := if started && id in agentText then agentText[id] else read;
      Ok(DecodedBody(AgentMessage(ContentRef(Markdown, text), phase), LifecycleStatus(started), agentText[id := text]))
    else if kind == "reasoning" then
      var summaryParts :- ReadArray(f, ReasoningSummary, false);
      var summary :- JoinTexts(summaryParts, ReasoningSummary);
      var bodyParts :- ReadArray(f, ReasoningContent, false);
      var body :- JoinTexts(bodyParts, ReasoningContent);
      var text := if body == "" then summary else if summary == "" then body else summary + "\n" + body;
      Ok(DecodedBody(Reasoning(ContentRef(PlainText, text)), LifecycleStatus(started), agentText))
    else if kind == "fileChange" then
      var rawStatus :- ReadText(f, FileChangeStatus);
      var status :- ItemStatusOf(rawStatus);
      var entries :- ReadArray(f, FileChangeEntries, true);
      var changes :- DecodeChanges(entries);
      Ok(DecodedBody(FileEdit(changes), status, agentText))
    else Err(UnmodelledEnumeration(ItemType))
  }
}
