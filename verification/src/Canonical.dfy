/**
 The canonical entities both provider reducers emit (crates/kaleido-proto). Minted identifiers wrap
 the seed they are derived from: the constructor is injective, which is what the digest is trusted
 for, and nothing else about the digest is used. Descriptive constants that no rule reads (display
 names, platform, launch surface, version label) are not carried.
 */
module Canonical {
  import opened Prelude

  datatype SessionId = SessionId(seed: string)
  datatype TurnId = TurnId(seed: string)
  datatype ItemId = ItemId(seed: string)

  /**
   Two seed shapes feed this namespace: the correlation key of an approval, and the key of a
   connection fault, which is minted from a runtime and a session identifier.
   */
  datatype AttentionId =
    | ApprovalAttention(correlation: string)
    | FaultAttention(runtime: string, session: SessionId)

  type RuntimeId = string
  type CommandId = string

  datatype HandleKind = SessionHandle | TurnHandle | ItemHandle | InteractionHandle | AcknowledgementHandle

  datatype Handle = Handle(runtime: RuntimeId, kind: HandleKind, seed: string)

  datatype ContentKind = PlainText | Markdown | FilePath | UnifiedDiff | StructuredSummary

  /** A stored body. Storing is content-addressed, so the reference determines the body. */
  datatype ContentRef = ContentRef(kind: ContentKind, text: string)

  datatype EvidenceSource = HandshakeDeclared | ObservedInTraffic | RecordedFixture | ManualAcceptance | Absent

  datatype Evidence = Evidence(source: EvidenceSource, observedAt: int)

  datatype UnboundReason = NeverStarted | RuntimeExited | SubscriptionLost

  datatype LiveBinding =
    | NotBound(reason: UnboundReason)
    | Observing(runtime: RuntimeId, since: int, evidence: Evidence)
    | Controlling(runtime: RuntimeId, since: int, evidence: Evidence)
  {
    predicate IsLive() { Observing? || Controlling? }
  }

  datatype SessionStatus = Offline | Idle | Running | SessionFailed

  datatype HistoryKind = NoHistory | ProviderApi | BrokerLog

  datatype Session = Session(
    id: SessionId,
    history: HistoryKind,
    historyEvidence: Evidence,
    liveBinding: LiveBinding,
    status: SessionStatus,
    title: Option<string>,
    createdAt: int,
    updatedAt: int,
    lastActivityAt: int,
    handle: Option<Handle>)

  datatype TurnStatus = TurnRunning | TurnCompleted | TurnFailed | TurnCancelled {
    predicate IsTerminal() { !TurnRunning? }
  }

  datatype TurnOrigin = LocalSurface | RemoteCommand(command: CommandId) | WorkflowStep(step: string)

  datatype Turn = Turn(
    id: TurnId,
    session: SessionId,
    status: TurnStatus,
    origin: TurnOrigin,
    startedAt: Option<int>,
    completedAt: Option<int>,
    errorAt: Option<int>,
    handle: Handle)

  datatype ItemStatus = InProgress | ItemCompleted | Declined | ItemFailed

  datatype MessagePhase = Commentary | FinalAnswer

  datatype FileChangeKind = Add | Modify | Delete

  datatype FileChange = FileChange(path: ContentRef, kind: FileChangeKind, diff: Option<ContentRef>)

  datatype ItemBody =
    | UserMessage(content: ContentRef)
    | AgentMessage(content: ContentRef, phase: MessagePhase)
    | Reasoning(content: ContentRef)
    | FileEdit(changes: seq<FileChange>)

  datatype Item = Item(
    id: ItemId,
    session: SessionId,
    turn: TurnId,
    sequence: nat,
    status: ItemStatus,
    body: ItemBody,
    createdAt: int,
    updatedAt: int,
    handle: Handle)

  datatype JoinFailure = ItemNotYetSeen | ItemUnknown | ScopeMismatch

  datatype JoinState = Joined(item: ItemId) | Unjoined(reason: JoinFailure)

  datatype ApprovalRequest = ApprovalRequest(
    requestKey: string,
    target: ItemId,
    join: JoinState,
    summary: ContentRef,
    detail: Option<ContentRef>,
    handle: Handle)

  datatype AttentionSubject =
    | Approval(request: ApprovalRequest)
    | ConnectionFault(runtime: RuntimeId, exitCode: Option<int>)

  datatype AnswerSource =
    | LocalCommand(command: CommandId)
    | ObservedExternal(observedAt: int, source: EvidenceSource)

  datatype AttentionState = Open | Answered(option: string, decidedAt: int, source: AnswerSource)

  datatype AttentionItem = AttentionItem(
    id: AttentionId,
    session: Option<SessionId>,
    turn: Option<TurnId>,
    subject: AttentionSubject,
    state: AttentionState,
    createdAt: int)

  datatype DiagnosticCode =
    | UnknownUpstreamMessage | UnknownUpstreamLabel | JoinDeferred | JoinFailed | MalformedProviderMessage

  datatype DiagnosticRecord = DiagnosticRecord(
    session: Option<SessionId>,
    code: DiagnosticCode,
    count: nat,
    firstAt: int,
    lastAt: int,
    detail: Option<ContentRef>)

  datatype CommandOutcome =
    | AcceptedByRuntime(session: SessionId, handle: Handle)
    | Rejected(at: int)

  datatype ConnectionState =
    | Disconnected
    | Connected(since: int)
    | Unavailable(exitCode: Option<int>, since: int)
}
