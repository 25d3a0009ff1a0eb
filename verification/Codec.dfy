/** The conversion between domain events and their wire form (package wire).

The wire form is what a journal stores and what a content hash covers. Encoding normalises: it
keeps the first field a part has set, drops the transient approval of a result, turns every number
into a float and forgets enum texts it does not know. */
module Codec {
  import opened Api

  datatype Value =
    | VNull
    | VBool(flag: bool)
    | VNumber(x: real)
    | VString(text: string)
    | VList(items: seq<Value>)
    | VStruct(fields: map<string, Value>)

  type Struct = Option<map<string, Value>>

  datatype Source = NoSource | Bytes(bytes: seq<byte>) | Uri(uri: string)

  datatype WireFile = WireFile(mime: string, source: Source, digest: string, name: string)

  datatype WireReasoning = WireReasoning(
    provider: string,
    modelId: string,
    source: Source,
    opaqueDigest: string,
    summary: seq<WirePart>,
    itemId: string,
    ordinal: int,
    validityScope: string)

  datatype WirePart =
    | EmptyPart
    | WireText(text: string)
    | WireFilePart(file: WireFile)
    | WireData(data: Struct)
    | WireReasoningPart(reasoning: WireReasoning)
    | WireCallPart(call: WireCall)
    | WireResultPart(result: WireResult)

  datatype WireMediation = MediationUnspecified | MediationInHarness | MediationController | MediationApproval

  datatype WireCall = WireCall(id: string, tool: string, args: Struct, mediation: WireMediation, key: string)

  datatype WireResult = WireResult(
    id: string,
    output: Struct,
    outputUri: string,
    outputDigest: string,
    isError: bool,
    error: string,
    content: seq<WirePart>,
    code: int,
    requestSeq: int,
    decisionSeq: int)

  datatype WireMessage = WireMessage(role: string, parts: seq<WirePart>)

  datatype WireLifecycleKind =
    | LcUnspecified | LcSuspend | LcResume | LcFork | LcBaseline | LcCancel | LcDelete

  datatype WireLifecycle = WireLifecycle(
    kind: WireLifecycleKind,
    detail: string,
    local: string,
    externalUri: string,
    memory: bool,
    sealed: bool)

  datatype WireBody =
    | WNone
    | WMessage(message: WireMessage)
    | WModelCall(modelCall: ModelCall)
    | WToolCall(toolCall: WireCall)
    | WResult(result: WireResult)
    | WApproval(request: ApprovalRequest)
    | WApprovalResult(decision: ApprovalResult)
    | WUsage(usage: Usage)
    | WLifecycle(lifecycle: WireLifecycle)
    | WEnd(end: HarnessEnd)
    | WError(error: ErrorInfo)
    | WStart(start: ExecutionStart)
    | WParked(ref: ApprovalRef)

  datatype WireEvent = WireEvent(executionId: string, kind: Kind, body: WireBody, actor: Option<Identity>)

  // ---- structured content ----

  function EncodeValue(j: Json): Value
    decreases j
  {
    match j
    case JNull => VNull
    case JBool(b) => VBool(b)
    case JInt(n) => VNumber(n as real)
    case JFloat(x) => VNumber(x)
    case JString(s) => VString(s)
    case JArray(items) => VList(seq(|items|, i requires 0 <= i < |items| => EncodeValue(items[i])))
    case JObject(fields) => VStruct(map k | k in fields :: EncodeValue(fields[k]))
  }

  function DecodeValue(v: Value): Json
    decreases v
  {
    match v
    case VNull => JNull
    case VBool(b) => JBool(b)
    case VNumber(x) => JFloat(x)
    case VString(s) => JString(s)
    case VList(items) => JArray(seq(|items|, i requires 0 <= i < |items| => DecodeValue(items[i])))
    case VStruct(fields) => JObject(map k | k in fields :: DecodeValue(fields[k]))
  }

  function ToStruct(m: Content): Struct
  {
    match m
    case None => None
    case Some(fields) => Some(map k | k in fields :: EncodeValue(fields[k]))
  }

  function FromStruct(s: Struct): Content
  {
    match s
    case None => None
    case Some(fields) => Some(map k | k in fields :: DecodeValue(fields[k]))
  }

  // ---- parts, calls and results ----

  function EncodeMediation(m: Mediation): WireMediation
  {
    match m
    case InHarnessReported => MediationInHarness
    case ControllerMediated => MediationController
    case RequiresApproval => MediationApproval
    case OtherMediation(_) => MediationUnspecified
  }

  function DecodeMediation(m: WireMediation): Mediation
  {
    match m
    case MediationInHarness => InHarnessReported
    case MediationController => ControllerMediated
    case MediationApproval => RequiresApproval
    case MediationUnspecified => OtherMediation("")
  }

  function EncodeSource(bytes: seq<byte>, uri: string): Source
  {
    if |bytes| > 0 then Bytes(bytes) else if uri != "" then Uri(uri) else NoSource
  }

  function SourceBytes(s: Source): seq<byte>
  {
    match s case Bytes(b) => b case _ => []
  }

  function SourceUri(s: Source): string
  {
    match s case Uri(u) => u case _ => ""
  }

  function EncodeFile(f: FilePart): WireFile
  {
    WireFile(f.mime, EncodeSource(f.bytes, f.uri), f.digest, f.name)
  }

  function DecodeFile(f: WireFile): FilePart
  {
    FilePart(f.mime, SourceBytes(f.source), SourceUri(f.source), f.digest, f.name)
  }

  function EncodePart(p: Part): WirePart
    decreases p
  {
    if p.text.Some? then WireText(p.text.value)
    else if p.file.Some? then WireFilePart(EncodeFile(p.file.value))
    else if p.data.Some? then WireData(ToStruct(p.data))
    else if p.reasoning.Some? then WireReasoningPart(EncodeReasoning(p.reasoning.value))
    else if p.toolCall.Some? then WireCallPart(EncodeCall(p.toolCall.value))
    else if p.toolResult.Some? then WireResultPart(EncodeResult(p.toolResult.value))
    else EmptyPart
  }

  function EncodeParts(ps: seq<Part>): seq<WirePart>
    decreases ps
  {
    seq(|ps|, i requires 0 <= i < |ps| => EncodePart(ps[i]))
  }

  function EncodeReasoning(r: ReasoningPart): WireReasoning
    decreases r
  {
    WireReasoning(r.provider, r.modelId, EncodeSource(r.opaqueBytes, r.opaqueUri), r.opaqueDigest,
                  EncodeParts(r.summary), r.itemId, r.ordinal, r.validityScope)
  }

  function EncodeCall(c: ToolCall): WireCall
  {
    WireCall(c.id, c.tool, ToStruct(c.args), EncodeMediation(c.mediation), c.key)
  }

  function EncodeResult(r: ToolResult): WireResult
    decreases r
  {
    WireResult(r.id, ToStruct(r.output), r.outputUri, r.outputDigest, r.isError, r.error,
               EncodeParts(r.content), r.code, r.requestSeq, r.decisionSeq)
  }

  const NO_PART := Part(None, None, None, None, None, None)

  function DecodePart(w: WirePart): Part
    decreases w
  {
    match w
    case EmptyPart => NO_PART
    case WireText(t) => NO_PART.(text := Some(t))
    case WireFilePart(f) => NO_PART.(file := Some(DecodeFile(f)))
    case WireData(d) => NO_PART.(data := FromStruct(d))
    case WireReasoningPart(r) => NO_PART.(reasoning := Some(DecodeReasoning(r)))
    case WireCallPart(c) => NO_PART.(toolCall := Some(DecodeCall(c)))
    case WireResultPart(r) => NO_PART.(toolResult := Some(DecodeResult(r)))
  }

  function DecodeParts(ws: seq<WirePart>): seq<Part>
    decreases ws
  {
    seq(|ws|, i requires 0 <= i < |ws| => DecodePart(ws[i]))
  }

  function DecodeReasoning(r: WireReasoning): ReasoningPart
    decreases r
  {
    ReasoningPart(r.provider, r.modelId, SourceBytes(r.source), SourceUri(r.source), r.opaqueDigest,
                  DecodeParts(r.summary), r.itemId, r.ordinal, r.validityScope)
  }

  function DecodeCall(c: WireCall): ToolCall
  {
    ToolCall(c.id, c.tool, FromStruct(c.args), DecodeMediation(c.mediation), c.key)
  }

  function DecodeResult(r: WireResult): ToolResult
    decreases r
  {
    ToolResult(r.id, FromStruct(r.output), r.outputUri, r.outputDigest, r.isError, r.error,
               DecodeParts(r.content), r.code, r.requestSeq, r.decisionSeq, None)
  }

  // ---- lifecycle and events ----

  function EncodeLifecycleKind(k: LifecycleKind): WireLifecycleKind
  {
    match k
    case Suspend => LcSuspend
    case Resume => LcResume
    case Fork => LcFork
    case Baseline => LcBaseline
    case Cancel => LcCancel
    case Delete => LcDelete
    case OtherLifecycle(_) => LcUnspecified
  }

  function DecodeLifecycleKind(k: WireLifecycleKind): LifecycleKind
  {
    match k
    case LcSuspend => Suspend
    case LcResume => Resume
    case LcFork => Fork
    case LcBaseline => Baseline
    case LcCancel => Cancel
    case LcDelete => Delete
    case LcUnspecified => OtherLifecycle("")
  }

  function EncodeLifecycle(l: Lifecycle): WireLifecycle
  {
    match l.snapshot
    case None => WireLifecycle(EncodeLifecycleKind(l.kind), l.detail, "", "", false, false)
    case Some(s) => WireLifecycle(EncodeLifecycleKind(l.kind), l.detail, s.local, s.externalUri, s.memory, s.sealed)
  }

  function DecodeLifecycle(w: WireLifecycle): Lifecycle
  {
    Lifecycle(DecodeLifecycleKind(w.kind), w.detail,
              if w.local != "" || w.externalUri != "" || w.memory || w.sealed
              then Some(SnapshotRef(w.local, w.externalUri, w.memory, w.sealed))
              else None)
  }

  function EncodeMessage(m: Message): WireMessage
  {
    WireMessage(m.role, EncodeParts(m.parts))
  }

  function DecodeMessage(w: WireMessage): Message
  {
    Message(w.role, DecodeParts(w.parts))
  }

  function EncodeBody(b: Body): WireBody
  {
    match b
    case NoBody => WNone
    case BMessage(m) => WMessage(EncodeMessage(m))
    case BModelCall(c) => WModelCall(c)
    case BToolCall(c) => WToolCall(EncodeCall(c))
    case BResult(r) => WResult(EncodeResult(r))
    case BApproval(r) => WApproval(r)
    case BApprovalResult(d) => WApprovalResult(d)
    case BUsage(u) => WUsage(u)
    case BLifecycle(l) => WLifecycle(EncodeLifecycle(l))
    case BEnd(e) => WEnd(e)
    case BError(e) => WError(e)
    case BStart(s) => WStart(s)
    case BParked(r) => WParked(r)
  }

  function DecodeBody(w: WireBody): Body
  {
    match w
    case WNone => NoBody
    case WMessage(m) => BMessage(DecodeMessage(m))
    case WModelCall(c) => BModelCall(c)
    case WToolCall(c) => BToolCall(DecodeCall(c))
    case WResult(r) => BResult(DecodeResult(r))
    case WApproval(r) => BApproval(r)
    case WApprovalResult(d) => BApprovalResult(d)
    case WUsage(u) => BUsage(u)
    case WLifecycle(l) => BLifecycle(DecodeLifecycle(l))
    case WEnd(e) => BEnd(e)
    case WError(e) => BError(e)
    case WStart(s) => BStart(s)
    case WParked(r) => BParked(r)
  }

  function EncodeEvent(e: Event): WireEvent
  {
    WireEvent(e.executionId, e.kind, EncodeBody(e.body), if e.actor == NO_IDENTITY then None else Some(e.actor))
  }

  function DecodeEvent(w: WireEvent): Event
  {
    Event(w.executionId, w.kind, DecodeBody(w.body), if w.actor.None? then NO_IDENTITY else w.actor.value)
  }

  // ---- encoding again changes nothing ----

  lemma {:induction false} ValueRoundTrip(v: Value)
    ensures EncodeValue(DecodeValue(v)) == v
    decreases v
  {
    match v
    case VList(items) =>
      forall i | 0 <= i < |items|
        ensures EncodeValue(DecodeValue(items[i])) == items[i]
      {
        ValueRoundTrip(items[i]);
      }
    case VStruct(fields) =>
      forall k | k in fields
        ensures EncodeValue(DecodeValue(fields[k])) == fields[k]
      {
        ValueRoundTrip(fields[k]);
      }
    case _ =>
  }

  lemma {:induction false} StructRoundTrip(s: Struct)
    ensures ToStruct(FromStruct(s)) == s
  {
    if s.Some? {
      forall k | k in s.value
        ensures EncodeValue(DecodeValue(s.value[k])) == s.value[k]
      {
        ValueRoundTrip(s.value[k]);
      }
      assert ToStruct(FromStruct(s)).value == s.value;
    }
  }

  /** Encoding a part, decoding it and encoding it again yields the first encoding. */
  lemma {:induction false} PartNormal(p: Part)
    ensures EncodePart(DecodePart(EncodePart(p))) == EncodePart(p)
    decreases p
  {
    if p.text.Some? || p.file.Some? {
    } else if p.data.Some? {
      StructRoundTrip(ToStruct(p.data));
    } else if p.reasoning.Some? {
      ReasoningNormal(p.reasoning.value);
    } else if p.toolCall.Some? {
      CallNormal(p.toolCall.value);
    } else if p.toolResult.Some? {
      ResultNormal(p.toolResult.value);
    }
  }

  lemma {:induction false} PartsNormal(ps: seq<Part>)
    ensures EncodeParts(DecodeParts(EncodeParts(ps))) == EncodeParts(ps)
    decreases ps
  {
    forall i | 0 <= i < |ps|
      ensures EncodePart(DecodePart(EncodePart(ps[i]))) == EncodePart(ps[i])
    {
      PartNormal(ps[i]);
    }
  }

  lemma {:induction false} ReasoningNormal(r: ReasoningPart)
    ensures EncodeReasoning(DecodeReasoning(EncodeReasoning(r))) == EncodeReasoning(r)
    decreases r
  {
    PartsNormal(r.summary);
  }

  lemma {:induction false} CallNormal(c: ToolCall)
    ensures EncodeCall(DecodeCall(EncodeCall(c))) == EncodeCall(c)
  {
    StructRoundTrip(ToStruct(c.args));
  }

  lemma {:induction false} ResultNormal(r: ToolResult)
    ensures EncodeResult(DecodeResult(EncodeResult(r))) == EncodeResult(r)
    decreases r
  {
    StructRoundTrip(ToStruct(r.output));
    PartsNormal(r.content);
  }

  /** The stored form of an event is stable: reading it back and encoding it again reproduces it. */
  lemma {:induction false} EventNormal(e: Event)
    ensures EncodeEvent(DecodeEvent(EncodeEvent(e))) == EncodeEvent(e)
  {
    match e.body
    case BMessage(m) => PartsNormal(m.parts);
    case BToolCall(c) => CallNormal(c);
    case BResult(r) => ResultNormal(r);
    case _ =>
  }

  // ---- which values survive a round trip unchanged ----

  /** A content value holds no integer: every number is already a float. */
  predicate PlainJson(j: Json)
    decreases j
  {
    match j
    case JInt(_) => false
    case JArray(items) => forall i | 0 <= i < |items| :: PlainJson(items[i])
    case JObject(fields) => forall k | k in fields :: PlainJson(fields[k])
    case _ => true
  }

  predicate PlainContent(m: Content)
  {
    m.Some? ==> forall k | k in m.value :: PlainJson(m.value[k])
  }

  predicate OneSource(bytes: seq<byte>, uri: string)
  {
    bytes == [] || uri == ""
  }

  function FieldsSet(p: Part): nat
  {
    (if p.text.Some? then 1 else 0) + (if p.file.Some? then 1 else 0) + (if p.data.Some? then 1 else 0) +
    (if p.reasoning.Some? then 1 else 0) + (if p.toolCall.Some? then 1 else 0) +
    (if p.toolResult.Some? then 1 else 0)
  }

  /** At most one field is set, and what it holds is plain. */
  predicate PlainPart(p: Part)
    decreases p
  {
    && FieldsSet(p) <= 1
    && (p.file.Some? ==> OneSource(p.file.value.bytes, p.file.value.uri))
    && PlainContent(p.data)
    && (p.reasoning.Some? ==> PlainReasoning(p.reasoning.value))
    && (p.toolCall.Some? ==> PlainCall(p.toolCall.value))
    && (p.toolResult.Some? ==> PlainResult(p.toolResult.value))
  }

  predicate PlainParts(ps: seq<Part>)
    decreases ps
  {
    forall i | 0 <= i < |ps| :: PlainPart(ps[i])
  }

  predicate PlainReasoning(r: ReasoningPart)
    decreases r
  {
    OneSource(r.opaqueBytes, r.opaqueUri) && PlainParts(r.summary)
  }

  predicate PlainCall(c: ToolCall)
  {
    PlainContent(c.args) && (c.mediation.OtherMediation? ==> c.mediation.name == "")
  }

  predicate PlainResult(r: ToolResult)
    decreases r
  {
    PlainContent(r.output) && PlainParts(r.content) && r.approval.None?
  }

  lemma {:induction false} JsonFixed(j: Json)
    ensures DecodeValue(EncodeValue(j)) == j <==> PlainJson(j)
    decreases j
  {
    match j
    case JArray(items) =>
      var back := DecodeValue(EncodeValue(j));
      forall i | 0 <= i < |items|
        ensures DecodeValue(EncodeValue(items[i])) == items[i] <==> PlainJson(items[i])
      {
        JsonFixed(items[i]);
      }
      assert forall i | 0 <= i < |items| :: back.items[i] == DecodeValue(EncodeValue(items[i]));
      if PlainJson(j) { assert back.items == items; }
    case JObject(fields) =>
      var back := DecodeValue(EncodeValue(j));
      forall k | k in fields
        ensures DecodeValue(EncodeValue(fields[k])) == fields[k] <==> PlainJson(fields[k])
      {
        JsonFixed(fields[k]);
      }
      assert forall k | k in fields :: back.fields[k] == DecodeValue(EncodeValue(fields[k]));
      if PlainJson(j) { assert back.fields == fields; }
    case _ =>
  }

  lemma {:induction false} ContentFixed(m: Content)
    ensures FromStruct(ToStruct(m)) == m <==> PlainContent(m)
  {
    if m.Some? {
      var back := FromStruct(ToStruct(m)).value;
      forall k | k in m.value
        ensures DecodeValue(EncodeValue(m.value[k])) == m.value[k] <==> PlainJson(m.value[k])
      {
        JsonFixed(m.value[k]);
      }
      assert forall k | k in m.value :: back[k] == DecodeValue(EncodeValue(m.value[k]));
      if PlainContent(m) { assert back == m.value; }
    }
  }

  /** A part survives the wire unchanged exactly when it is plain. */
  lemma {:induction false} PartFixed(p: Part)
    ensures DecodePart(EncodePart(p)) == p <==> PlainPart(p)
    decreases p
  {
    ContentFixed(p.data);
    if p.reasoning.Some? { ReasoningFixed(p.reasoning.value); }
    if p.toolCall.Some? { ContentFixed(p.toolCall.value.args); }
    if p.toolResult.Some? { ResultFixed(p.toolResult.value); }
  }

  lemma {:induction false} PartsFixed(ps: seq<Part>)
    ensures DecodeParts(EncodeParts(ps)) == ps <==> PlainParts(ps)
    decreases ps
  {
    var back := DecodeParts(EncodeParts(ps));
    forall i | 0 <= i < |ps|
      ensures DecodePart(EncodePart(ps[i])) == ps[i] <==> PlainPart(ps[i])
    {
      PartFixed(ps[i]);
    }
    assert forall i | 0 <= i < |ps| :: back[i] == DecodePart(EncodePart(ps[i]));
    if PlainParts(ps) { assert back == ps; }
  }

  lemma {:induction false} ReasoningFixed(r: ReasoningPart)
    ensures DecodeReasoning(EncodeReasoning(r)) == r <==> PlainReasoning(r)
    decreases r
  {
    PartsFixed(r.summary);
  }

  lemma {:induction false} ResultFixed(r: ToolResult)
    ensures DecodeResult(EncodeResult(r)) == r <==> PlainResult(r)
    decreases r
  {
    ContentFixed(r.output);
    PartsFixed(r.content);
  }

  predicate PlainLifecycle(l: Lifecycle)
  {
    && (l.kind.OtherLifecycle? ==> l.kind.name == "")
    && (l.snapshot.Some? ==>
          l.snapshot.value.local != "" || l.snapshot.value.externalUri != "" || l.snapshot.value.memory || l.snapshot.value.sealed)
  }

  /** What an event carries comes back from storage as it was written. */
  predicate PlainEvent(e: Event)
  {
    match e.body
    case BMessage(m) => PlainParts(m.parts)
    case BToolCall(c) => PlainCall(c)
    case BResult(r) => PlainResult(r)
    case BLifecycle(l) => PlainLifecycle(l)
    case _ => true
  }

  /** An event survives storage unchanged exactly when what it carries is plain. */
  lemma {:induction false} EventFixed(e: Event)
    ensures DecodeEvent(EncodeEvent(e)) == e <==> PlainEvent(e)
  {
    match e.body
    case BMessage(m) => PartsFixed(m.parts);
    case BToolCall(c) => ContentFixed(c.args);
    case BResult(r) => ResultFixed(r);
    case BLifecycle(l) => LifecycleFixed(l);
    case _ =>
  }

  lemma {:induction false} LifecycleFixed(l: Lifecycle)
    ensures DecodeLifecycle(EncodeLifecycle(l)) == l <==> PlainLifecycle(l)
  {
  }
}
