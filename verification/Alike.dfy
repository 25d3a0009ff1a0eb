/** What the wire form keeps of a value (package wire).

Two values have one wire form exactly when they are alike: structured content is compared value by value
with an integer alike the float of the same number, a part by the first field it has set, an unknown enum
text with any other, a file by its bytes or else its URI, and a result without the transient decision. So
what comes back from storage is always like what was written. */
module Alike {
  import opened Api
  import opened Codec

  // ---- structured content ----

  predicate IsNumber(j: Json)
  {
    j.JInt? || j.JFloat?
  }

  function NumberOf(j: Json): real
    requires IsNumber(j)
  {
    if j.JInt? then j.n as real else j.x
  }

  /** The same value, integers and floats compared as numbers. */
  predicate LikeValue(j: Json, k: Json)
    decreases j
  {
    match j
    case JNull => k.JNull?
    case JBool(b) => k == JBool(b)
    case JInt(_) => IsNumber(k) && NumberOf(k) == NumberOf(j)
    case JFloat(_) => IsNumber(k) && NumberOf(k) == NumberOf(j)
    case JString(s) => k == JString(s)
    case JArray(items) => k.JArray? && |k.items| == |items| && forall i | 0 <= i < |items| :: LikeValue(items[i], k.items[i])
    case JObject(fields) => k.JObject? && k.fields.Keys == fields.Keys && forall f | f in fields :: LikeValue(fields[f], k.fields[f])
  }

  predicate LikeContent(a: Content, b: Content)
  {
    a.Some? == b.Some? &&
    (a.Some? ==> a.value.Keys == b.value.Keys && forall f | f in a.value :: LikeValue(a.value[f], b.value[f]))
  }

  lemma {:induction false} OneValue(j: Json, k: Json)
    ensures EncodeValue(j) == EncodeValue(k) <==> LikeValue(j, k)
    decreases j
  {
    match (j, k)
    case (JArray(a), JArray(b)) =>
      var va, vb := EncodeValue(j), EncodeValue(k);
      forall i | 0 <= i < |a| && i < |b|
        ensures EncodeValue(a[i]) == EncodeValue(b[i]) <==> LikeValue(a[i], b[i])
      {
        OneValue(a[i], b[i]);
      }
      assert |va.items| == |a| && |vb.items| == |b|;
      assert forall i | 0 <= i < |a| :: va.items[i] == EncodeValue(a[i]);
      assert forall i | 0 <= i < |b| :: vb.items[i] == EncodeValue(b[i]);
      if LikeValue(j, k) { assert va.items == vb.items; }
    case (JObject(a), JObject(b)) =>
      var va, vb := EncodeValue(j), EncodeValue(k);
      forall f | f in a && f in b
        ensures EncodeValue(a[f]) == EncodeValue(b[f]) <==> LikeValue(a[f], b[f])
      {
        OneValue(a[f], b[f]);
      }
      assert va.fields.Keys == a.Keys && vb.fields.Keys == b.Keys;
      assert forall f | f in a :: va.fields[f] == EncodeValue(a[f]);
      assert forall f | f in b :: vb.fields[f] == EncodeValue(b[f]);
      if LikeValue(j, k) { assert va.fields == vb.fields; }
    case _ =>
  }

  /** Two content maps have one wire form iff they are alike. */
  lemma {:induction false} OneContent(a: Content, b: Content)
    ensures ToStruct(a) == ToStruct(b) <==> LikeContent(a, b)
  {
    if a.Some? && b.Some? {
      var va, vb := ToStruct(a).value, ToStruct(b).value;
      forall f | f in a.value && f in b.value
        ensures EncodeValue(a.value[f]) == EncodeValue(b.value[f]) <==> LikeValue(a.value[f], b.value[f])
      {
        OneValue(a.value[f], b.value[f]);
      }
      assert va.Keys == a.value.Keys && vb.Keys == b.value.Keys;
      assert forall f | f in a.value :: va[f] == EncodeValue(a.value[f]);
      assert forall f | f in b.value :: vb[f] == EncodeValue(b.value[f]);
      if LikeContent(a, b) { assert va == vb; }
    }
  }

  /** Content comes back like what was written, with no integer left in it. */
  lemma {:induction false} ContentComesBack(m: Content)
    ensures LikeContent(m, FromStruct(ToStruct(m))) && PlainContent(FromStruct(ToStruct(m)))
  {
    StructRoundTrip(ToStruct(m));
    OneContent(m, FromStruct(ToStruct(m)));
    ContentFixed(FromStruct(ToStruct(m)));
  }

  // ---- calls, results and parts ----

  predicate LikeMediation(a: Mediation, b: Mediation)
  {
    a == b || (a.OtherMediation? && b.OtherMediation?)
  }

  predicate LikeCall(a: ToolCall, b: ToolCall)
  {
    a.id == b.id && a.tool == b.tool && a.key == b.key && LikeMediation(a.mediation, b.mediation) && LikeContent(a.args, b.args)
  }

  /** The bytes when there are any, else the URI. */
  predicate LikeSource(bytes: seq<byte>, uri: string, bytes': seq<byte>, uri': string)
  {
    if bytes != [] || bytes' != [] then bytes == bytes' else uri == uri'
  }

  predicate LikeFile(a: FilePart, b: FilePart)
  {
    a.mime == b.mime && a.digest == b.digest && a.name == b.name && LikeSource(a.bytes, a.uri, b.bytes, b.uri)
  }

  /** The first of text, file, data, reasoning, call and result that either has set is set in both, alike. */
  predicate LikePart(p: Part, q: Part)
    decreases p
  {
    if p.text.Some? || q.text.Some? then p.text == q.text
    else if p.file.Some? || q.file.Some? then p.file.Some? && q.file.Some? && LikeFile(p.file.value, q.file.value)
    else if p.data.Some? || q.data.Some? then LikeContent(p.data, q.data)
    else if p.reasoning.Some? || q.reasoning.Some? then
      p.reasoning.Some? && q.reasoning.Some? && LikeReasoning(p.reasoning.value, q.reasoning.value)
    else if p.toolCall.Some? || q.toolCall.Some? then
      p.toolCall.Some? && q.toolCall.Some? && LikeCall(p.toolCall.value, q.toolCall.value)
    else if p.toolResult.Some? || q.toolResult.Some? then
      p.toolResult.Some? && q.toolResult.Some? && LikeResult(p.toolResult.value, q.toolResult.value)
    else true
  }

  predicate LikeParts(ps: seq<Part>, qs: seq<Part>)
    decreases ps
  {
    |ps| == |qs| && forall i | 0 <= i < |ps| :: LikePart(ps[i], qs[i])
  }

  predicate LikeReasoning(a: ReasoningPart, b: ReasoningPart)
    decreases a
  {
    && a.provider == b.provider && a.modelId == b.modelId
    && LikeSource(a.opaqueBytes, a.opaqueUri, b.opaqueBytes, b.opaqueUri) && a.opaqueDigest == b.opaqueDigest
    && LikeParts(a.summary, b.summary)
    && a.itemId == b.itemId && a.ordinal == b.ordinal && a.validityScope == b.validityScope
  }

  predicate LikeResult(a: ToolResult, b: ToolResult)
    decreases a
  {
    && a.id == b.id && LikeContent(a.output, b.output)
    && a.outputUri == b.outputUri && a.outputDigest == b.outputDigest
    && a.isError == b.isError && a.error == b.error && LikeParts(a.content, b.content)
    && a.code == b.code && a.requestSeq == b.requestSeq && a.decisionSeq == b.decisionSeq
  }

  lemma {:induction false} OneCall(a: ToolCall, b: ToolCall)
    ensures EncodeCall(a) == EncodeCall(b) <==> LikeCall(a, b)
  {
    OneContent(a.args, b.args);
    hide ToStruct, LikeContent;
  }

  lemma {:induction false} OneFile(a: FilePart, b: FilePart)
    ensures EncodeFile(a) == EncodeFile(b) <==> LikeFile(a, b)
  {
  }

  /** Two parts have one wire form iff their first fields are alike. */
  lemma {:induction false} OnePart(p: Part, q: Part)
    ensures EncodePart(p) == EncodePart(q) <==> LikePart(p, q)
    decreases p
  {
    OneContent(p.data, q.data);
    hide ToStruct, LikeContent, EncodeCall, LikeCall, LikeFile, EncodeFile;
    if p.file.Some? && q.file.Some? { OneFile(p.file.value, q.file.value); }
    if p.reasoning.Some? && q.reasoning.Some? { OneReasoning(p.reasoning.value, q.reasoning.value); }
    if p.toolCall.Some? && q.toolCall.Some? { OneCall(p.toolCall.value, q.toolCall.value); }
    if p.toolResult.Some? && q.toolResult.Some? { OneResult(p.toolResult.value, q.toolResult.value); }
    hide LikeReasoning, EncodeReasoning, LikeResult, EncodeResult;
    EmptyStruct(p.data, q.data);
  }

  lemma {:induction false} EmptyStruct(a: Content, b: Content)
    ensures ToStruct(a).Some? == a.Some? && ToStruct(b).Some? == b.Some?
  {
  }

  lemma {:induction false} OneParts(ps: seq<Part>, qs: seq<Part>)
    ensures EncodeParts(ps) == EncodeParts(qs) <==> LikeParts(ps, qs)
    decreases ps
  {
    forall i | 0 <= i < |ps| && i < |qs|
      ensures EncodePart(ps[i]) == EncodePart(qs[i]) <==> LikePart(ps[i], qs[i])
    {
      OnePart(ps[i], qs[i]);
    }
    var a, b := EncodeParts(ps), EncodeParts(qs);
    assert |a| == |ps| && |b| == |qs|;
    hide LikePart, EncodePart;
    assert forall i | 0 <= i < |ps| :: a[i] == EncodePart(ps[i]);
    assert forall i | 0 <= i < |qs| :: b[i] == EncodePart(qs[i]);
    if LikeParts(ps, qs) { assert a == b; }
  }

  lemma {:induction false} OneReasoning(a: ReasoningPart, b: ReasoningPart)
    ensures EncodeReasoning(a) == EncodeReasoning(b) <==> LikeReasoning(a, b)
    decreases a
  {
    OneParts(a.summary, b.summary);
    hide LikeParts, EncodeParts;
  }

  lemma {:induction false} OneResult(a: ToolResult, b: ToolResult)
    ensures EncodeResult(a) == EncodeResult(b) <==> LikeResult(a, b)
    decreases a
  {
    OneContent(a.output, b.output);
    OneParts(a.content, b.content);
    hide LikeParts, EncodeParts, LikeContent, ToStruct;
  }

  // ---- events ----

  predicate LikeMessage(a: Message, b: Message)
  {
    a.role == b.role && LikeParts(a.parts, b.parts)
  }

  /** A snapshot reference that says nothing is like none. */
  function Said(s: Option<SnapshotRef>): SnapshotRef
  {
    if s.Some? then s.value else SnapshotRef("", "", false, false)
  }

  predicate LikeLifecycle(a: Lifecycle, b: Lifecycle)
  {
    && (a.kind == b.kind || (a.kind.OtherLifecycle? && b.kind.OtherLifecycle?))
    && a.detail == b.detail && Said(a.snapshot) == Said(b.snapshot)
  }

  predicate LikeBody(a: Body, b: Body)
  {
    match a
    case BMessage(m) => b.BMessage? && LikeMessage(m, b.message)
    case BToolCall(c) => b.BToolCall? && LikeCall(c, b.toolCall)
    case BResult(r) => b.BResult? && LikeResult(r, b.result)
    case BLifecycle(l) => b.BLifecycle? && LikeLifecycle(l, b.lifecycle)
    case _ => a == b
  }

  predicate LikeEvent(e: Event, f: Event)
  {
    e.executionId == f.executionId && e.kind == f.kind && LikeBody(e.body, f.body) && e.actor == f.actor
  }

  /** Two events have one wire form, and so one content hash, iff they are alike. */
  lemma {:induction false} OneEvent(e: Event, f: Event)
    ensures EncodeEvent(e) == EncodeEvent(f) <==> LikeEvent(e, f)
  {
    hide LikeParts, EncodeParts, LikeCall, EncodeCall, LikeResult, EncodeResult;
    match (e.body, f.body)
    case (BMessage(m), BMessage(n)) => OneParts(m.parts, n.parts);
    case (BToolCall(c), BToolCall(d)) => OneCall(c, d);
    case (BResult(r), BResult(s)) => OneResult(r, s);
    case _ =>
  }

  /** What comes back from storage is like what was written, and is plain, so it comes back the same ever after. */
  lemma {:induction false} EventComesBackAlike(e: Event)
    ensures LikeEvent(e, DecodeEvent(EncodeEvent(e))) && PlainEvent(DecodeEvent(EncodeEvent(e)))
  {
    var back := DecodeEvent(EncodeEvent(e));
    EventNormal(e);
    OneEvent(e, back);
    EventFixed(back);
  }

  /** The same of a call and of a result on their own, as they cross the wire. */
  lemma {:induction false} CallComesBackAlike(c: ToolCall)
    ensures LikeCall(c, DecodeCall(EncodeCall(c))) && PlainCall(DecodeCall(EncodeCall(c)))
  {
    CallNormal(c);
    OneCall(c, DecodeCall(EncodeCall(c)));
    ContentComesBack(c.args);
  }

  lemma {:induction false} ResultComesBackAlike(r: ToolResult)
    ensures LikeResult(r, DecodeResult(EncodeResult(r))) && PlainResult(DecodeResult(EncodeResult(r)))
  {
    ResultNormal(r);
    OneResult(r, DecodeResult(EncodeResult(r)));
    ResultFixed(DecodeResult(EncodeResult(r)));
  }

  /** A part comes back as the first of its fields, alike, and no other. */
  lemma {:induction false} PartComesBackAlike(p: Part)
    ensures var q := DecodePart(EncodePart(p)); LikePart(p, q) && PlainPart(q)
  {
    PartNormal(p);
    OnePart(p, DecodePart(EncodePart(p)));
    PartFixed(DecodePart(EncodePart(p)));
  }
}
