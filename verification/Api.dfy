/** The domain types shared by the journal, the controller and the wire codec (package api).

An event pairs a kind with at most one typed body. The two are independent: a journal read back
from storage may carry a kind whose payload is missing, and the controller has a branch for that. */
module Api {

  datatype Option<+T> = None | Some(value: T)

  datatype Result<+T, +E> = Ok(value: T) | Err(error: E)

  newtype byte = b: int | 0 <= b < 256

  /** A JSON-shaped value as the host holds it: integers are still integers here. */
  datatype Json =
    | JNull
    | JBool(flag: bool)
    | JInt(n: int)
    | JFloat(x: real)
    | JString(text: string)
    | JArray(items: seq<Json>)
    | JObject(fields: map<string, Json>)

  /** A structured content map; None is the nil map. */
  type Content = Option<map<string, Json>>

  datatype Message = Message(role: string, parts: seq<Part>)

  /** One unit of content. The first field that is set is the one that crosses the wire. */
  datatype Part = Part(
    text: Option<string>,
    file: Option<FilePart>,
    data: Content,
    reasoning: Option<ReasoningPart>,
    toolCall: Option<ToolCall>,
    toolResult: Option<ToolResult>)

  datatype FilePart = FilePart(mime: string, bytes: seq<byte>, uri: string, digest: string, name: string)

  datatype ReasoningPart = ReasoningPart(
    provider: string,
    modelId: string,
    opaqueBytes: seq<byte>,
    opaqueUri: string,
    opaqueDigest: string,
    summary: seq<Part>,
    itemId: string,
    ordinal: int,
    validityScope: string)

  /** How a tool call is executed. Any other text the type can hold behaves as the default. */
  datatype Mediation = ControllerMediated | RequiresApproval | InHarnessReported | OtherMediation(name: string)

  datatype ToolCall = ToolCall(id: string, tool: string, args: Content, mediation: Mediation, key: string)

  const CODE_UNSPECIFIED := 0
  const CODE_APPROVAL_DENIED := 1
  const CODE_EXECUTOR_ERROR := 2

  datatype ToolResult = ToolResult(
    id: string,
    output: Content,
    outputUri: string,
    outputDigest: string,
    isError: bool,
    error: string,
    content: seq<Part>,
    code: int,
    requestSeq: int,
    decisionSeq: int,
    approval: Option<ApprovalResult>)

  datatype ApprovalRequest = ApprovalRequest(toolCallId: string, reason: string)

  datatype ApprovalResult = ApprovalResult(toolCallId: string, approved: bool, reason: string, requestSeq: int)

  datatype ApprovalRef = ApprovalRef(executionId: string, toolCallId: string, requestSeq: int)

  datatype ModelCall = ModelCall(model: string, inputHash: string, id: string)

  datatype Usage = Usage(model: string, inputTokens: int, outputTokens: int, reasoningTokens: int)

  const NO_USAGE := Usage("", 0, 0, 0)

  datatype Identity = Identity(principal: string, issuer: string, subject: string)

  const NO_IDENTITY := Identity("", "", "")

  datatype SnapshotRef = SnapshotRef(local: string, externalUri: string, memory: bool, sealed: bool)

  datatype LifecycleKind = Suspend | Resume | Fork | Baseline | Cancel | Delete | OtherLifecycle(name: string)

  datatype Lifecycle = Lifecycle(kind: LifecycleKind, detail: string, snapshot: Option<SnapshotRef>)

  datatype ErrorInfo = ErrorInfo(code: int, description: string)

  datatype HarnessEnd = HarnessEnd(state: string, error: Option<ErrorInfo>)

  /** The start marker of one invocation; inputCount is None when the marker does not carry it. */
  datatype ExecutionStart = ExecutionStart(
    config: seq<byte>,
    resumeFromSeq: int,
    inputCount: Option<int>,
    harness: string,
    harnessVersion: string)

  datatype Kind =
    | KInput
    | KModelCall
    | KOutput
    | KToolCall
    | KToolResult
    | KApprovalRequest
    | KApprovalResult
    | KUsage
    | KLifecycle
    | KEnd
    | KError
    | KExecutionStart
    | KParked
    | KUnspecified

  datatype Body =
    | NoBody
    | BMessage(message: Message)
    | BModelCall(modelCall: ModelCall)
    | BToolCall(toolCall: ToolCall)
    | BResult(result: ToolResult)
    | BApproval(request: ApprovalRequest)
    | BApprovalResult(decision: ApprovalResult)
    | BUsage(usage: Usage)
    | BLifecycle(lifecycle: Lifecycle)
    | BEnd(end: HarnessEnd)
    | BError(error: ErrorInfo)
    | BStart(start: ExecutionStart)
    | BParked(ref: ApprovalRef)

  datatype Event = Event(executionId: string, kind: Kind, body: Body, actor: Identity)

  /** The part of a committed record that scans and projections read: its sequence number and event. */
  datatype Entry = Entry(num: int, event: Event)

  /** The concatenated text parts of a message. */
  function Text(parts: seq<Part>): string
  {
    if parts == [] then ""
    else (if parts[0].text.Some? then parts[0].text.value else "") + Text(parts[1..])
  }

  function TextPart(text: string): Part
  {
    Part(Some(text), None, None, None, None, None)
  }

  function TextMessage(role: string, text: string): Message
  {
    Message(role, [TextPart(text)])
  }

  /** A recorded text message reads back as the text it was built from. */
  lemma {:induction false} TextOfTextMessage(role: string, text: string)
    ensures Text(TextMessage(role, text).parts) == text
  {
    var parts := TextMessage(role, text).parts;
    assert parts[1..] == [];
    assert text + "" == text;
  }

  predicate IsFork(event: Event)
  {
    event.kind.KLifecycle? && event.body.BLifecycle? && event.body.lifecycle.kind.Fork?
  }

  predicate IsGatedCall(event: Event)
  {
    event.kind.KToolCall? && event.body.BToolCall? && event.body.toolCall.mediation.RequiresApproval?
  }
}
