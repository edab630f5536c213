/** Stream fields of a message: what Publish, requeue, routeDLQ and the DLQ replay write, and what
    decodeMessage reads back (go-ingestion/internal/queue/redisstreams/queue.go,
    go-ingestion/internal/dlq/commands.go). */
module MessageCodec {
  import opened Decimal
  import opened QueueTypes

  /** The field names in use; Spelling gives their text. */
  datatype FieldName = PayloadField | RetryField | ReasonField | Header(name: string)

  function Spelling(f: FieldName): string {
    match f
    case PayloadField => "p"
    case RetryField => "r"
    case ReasonField => "reason"
    case Header(name) => "h:" + name
  }

  /** A field value: payload bytes, or text. */
  datatype Value<P> = Raw(payload: P) | Text(text: string)

  type Fields<P> = map<FieldName, Value<P>>

  datatype DecodeError = MissingPayload | UnexpectedPayloadType

  /** The text of a decode error, without the name of the unexpected type. */
  function ErrorText(e: DecodeError): string {
    match e
    case MissingPayload => "missing payload field \"p\""
    case UnexpectedPayloadType => "unexpected payload type"
  }

  datatype Decoded<P> = Ok(task: Task<P>) | Bad(error: DecodeError)

  /** The prefix keeps headers apart from the other fields and from each other, whatever their names. */
  lemma SpellingInjective(a: FieldName, b: FieldName)
    requires Spelling(a) == Spelling(b)
    ensures a == b
  {
    if a.Header? && b.Header? {
      assert Spelling(a)[2..] == a.name && Spelling(b)[2..] == b.name;
    } else {
      assert (if a.Header? then 'h' else Spelling(a)[0]) == (if b.Header? then 'h' else Spelling(b)[0]);
    }
  }

  // ----- Encoding -----

  ghost function HeaderFields<P>(headers: map<string, string>): Fields<P> {
    map k | k in headers :: Header(k) := Text(headers[k])
  }

  /** The fields Publish and requeue write. */
  ghost function Encoded<P>(payload: P, retryCount: int, headers: map<string, string>): Fields<P> {
    HeaderFields(headers) + map[PayloadField := Raw(payload), RetryField := Text(Itoa(retryCount))]
  }

  /** The fields routeDLQ writes. */
  ghost function EncodedDead<P>(payload: P, retryCount: int, headers: map<string, string>, reason: string): Fields<P> {
    Encoded(payload, retryCount, headers)[ReasonField := Text(reason)]
  }

  /** The loop that copies headers into prefixed fields. */
  method AddHeaders<P>(values: Fields<P>, headers: map<string, string>) returns (out: Fields<P>)
    requires forall f :: f in values ==> !f.Header?
    ensures out == HeaderFields(headers) + values
  {
    out := values;
    var rest := headers.Keys;
    while rest != {}
      invariant rest <= headers.Keys
      invariant forall k :: Header(k) in out <==> k in headers.Keys - rest
      invariant forall k :: k in headers.Keys - rest ==> out[Header(k)] == Text(headers[k])
      invariant forall f: FieldName :: !f.Header? ==> (f in out <==> f in values) && (f in out ==> out[f] == values[f])
      decreases rest
    {
      var k :| k in rest;
      out := out[Header(k) := Text(headers[k])];
      rest := rest - {k};
    }
    forall f
      ensures f in out <==> f in HeaderFields<P>(headers) + values
    {
      if f.Header? {
        assert f == Header(f.name);
      }
    }
  }

  /** The value map Publish and requeue build. */
  method Encode<P>(payload: P, retryCount: int, headers: map<string, string>) returns (values: Fields<P>)
    ensures values == Encoded(payload, retryCount, headers)
  {
    values := map[PayloadField := Raw(payload), RetryField := Text(Itoa(retryCount))];
    values := AddHeaders(values, headers);
  }

  /** The value map routeDLQ builds. */
  method EncodeDead<P>(payload: P, retryCount: int, headers: map<string, string>,
      reason: string) returns (values: Fields<P>)
    ensures values == EncodedDead(payload, retryCount, headers, reason)
  {
    values := map[PayloadField := Raw(payload), RetryField := Text(Itoa(retryCount)), ReasonField := Text(reason)];
    values := AddHeaders(values, headers);
  }

  // ----- Decoding -----

  ghost function HeadersOf<P>(fields: Fields<P>): map<string, string> {
    map f | f in fields && f.Header? && fields[f].Text? :: f.name := fields[f].text
  }

  ghost function RetryOf<P>(fields: Fields<P>): int {
    if RetryField in fields && fields[RetryField].Text? && Atoi(fields[RetryField].text).Some?
    then Atoi(fields[RetryField].text).value else 0
  }

  ghost function Decode<P>(id: nat, fields: Fields<P>): Decoded<P> {
    if PayloadField !in fields then Bad(MissingPayload)
    else if !fields[PayloadField].Raw? then Bad(UnexpectedPayloadType)
    else Ok(Task(id, fields[PayloadField].payload, HeadersOf(fields), RetryOf(fields)))
  }

  /** The loop that collects the prefixed text fields. */
  method CollectHeaders<P>(fields: Fields<P>) returns (headers: map<string, string>)
    ensures headers == HeadersOf(fields)
    ensures forall k :: k in headers <==> Header(k) in fields && fields[Header(k)].Text?
    ensures forall k :: k in headers ==> headers[k] == fields[Header(k)].text
  {
    headers := map[];
    var rest := fields.Keys;
    while rest != {}
      invariant rest <= fields.Keys
      invariant forall k :: k in headers <==> Header(k) in fields.Keys - rest && fields[Header(k)].Text?
      invariant forall k :: k in headers ==> headers[k] == fields[Header(k)].text
      decreases rest
    {
      var f :| f in rest;
      if f.Header? && fields[f].Text? {
        headers := headers[f.name := fields[f].text];
      }
      rest := rest - {f};
    }
    assert headers.Keys == HeadersOf(fields).Keys;
  }

  /** decodeMessage. A retry field that is no number counts as 0. */
  method DecodeMessage<P>(id: nat, fields: Fields<P>) returns (r: Decoded<P>)
    ensures r == Decode(id, fields)
  {
    if PayloadField !in fields {
      return Bad(MissingPayload);
    }
    if !fields[PayloadField].Raw? {
      return Bad(UnexpectedPayloadType);
    }
    var retryCount := 0;
    if RetryField in fields && fields[RetryField].Text? {
      var n := Atoi(fields[RetryField].text);
      if n.Some? {
        retryCount := n.value;
      }
    }
    var headers := CollectHeaders(fields);
    return Ok(Task(id, fields[PayloadField].payload, headers, retryCount));
  }

  // ----- Round trips -----

  lemma HeadersRoundTrip<P>(headers: map<string, string>, others: Fields<P>)
    requires forall f :: f in others ==> !f.Header?
    ensures HeadersOf(HeaderFields(headers) + others) == headers
  {
    var fields := HeaderFields(headers) + others;
    forall k
      ensures k in HeadersOf(fields) <==> k in headers
    {
      if k in headers {
        assert Header(k) in fields && Header(k).name == k;
      }
    }
  }

  /** decodeMessage recovers exactly the payload, retry count and headers that Publish and requeue wrote,
      whatever the header names are. */
  lemma RoundTrip<P>(id: nat, payload: P, retryCount: int, headers: map<string, string>)
    ensures Decode(id, Encoded(payload, retryCount, headers)) == Ok(Task(id, payload, headers, retryCount))
  {
    var others: Fields<P> := map[PayloadField := Raw(payload), RetryField := Text(Itoa(retryCount))];
    HeadersRoundTrip(headers, others);
    AtoiOfItoa(retryCount);
  }

  lemma ReasonIsNotRead<P>(id: nat, fields: Fields<P>, v: Value<P>)
    ensures Decode(id, fields[ReasonField := v]) == Decode(id, fields)
  {
    var more := fields[ReasonField := v];
    assert HeadersOf(more).Keys == HeadersOf(fields).Keys;
    assert HeadersOf(more) == HeadersOf(fields);
  }

  /** The same holds of what routeDLQ wrote; the reason is not read back. */
  lemma DeadRoundTrip<P>(id: nat, payload: P, retryCount: int, headers: map<string, string>, reason: string)
    ensures Decode(id, EncodedDead(payload, retryCount, headers, reason)) == Ok(Task(id, payload, headers, retryCount))
  {
    RoundTrip(id, payload, retryCount, headers);
    ReasonIsNotRead(id, Encoded(payload, retryCount, headers), Text(reason));
  }

  // ----- DLQ replay -----

  const TRACE_HEADERS := {"traceparent", "tracestate"}

  ghost function TraceContext(headers: map<string, string>): map<string, string> {
    map k | k in headers && k in TRACE_HEADERS :: headers[k]
  }

  /** The fields the replay writes for a DLQ message: payload, retry 0, and of the headers only the two of
      the trace context. */
  ghost function Replayed<P>(fields: Fields<P>): Fields<P>
    requires PayloadField in fields && fields[PayloadField].Raw?
  {
    Encoded(fields[PayloadField].payload, 0, TraceContext(HeadersOf(fields)))
  }

  /** replayValues, for fields whose headers are text. */
  method ReplayValues<P>(fields: Fields<P>) returns (vals: Fields<P>)
    requires PayloadField in fields && fields[PayloadField].Raw?
    requires forall f :: f in fields && f.Header? ==> fields[f].Text?
    ensures vals == Replayed(fields)
  {
    assert Itoa(0) == "0";
    vals := map[PayloadField := fields[PayloadField], RetryField := Text("0")];
    var parent, state := Header("traceparent"), Header("tracestate");
    if parent in fields {
      vals := vals[parent := fields[parent]];
    }
    if state in fields {
      vals := vals[state := fields[state]];
    }
    forall f
      ensures f in vals <==>
                f == PayloadField || f == RetryField || (f.Header? && f.name in TRACE_HEADERS && f in fields)
    {
    }
    TraceFieldsAre(fields, vals);
  }

  lemma ReplayedHeader<P>(fields: Fields<P>, k: string)
    requires PayloadField in fields && fields[PayloadField].Raw?
    requires forall f :: f in fields && f.Header? ==> fields[f].Text?
    ensures Header(k) in Replayed(fields) <==> k in TRACE_HEADERS && Header(k) in fields
    ensures Header(k) in Replayed(fields) ==> Replayed(fields)[Header(k)] == fields[Header(k)]
  {
    assert Header(k).name == k;
    assert k in HeadersOf(fields) <==> Header(k) in fields;
  }

  lemma ReplayedOthers<P>(fields: Fields<P>)
    requires PayloadField in fields && fields[PayloadField].Raw?
    ensures PayloadField in Replayed(fields) && Replayed(fields)[PayloadField] == fields[PayloadField]
    ensures RetryField in Replayed(fields) && Replayed(fields)[RetryField] == Text(Itoa(0))
    ensures ReasonField !in Replayed(fields)
  {
  }

  lemma TraceFieldsAre<P>(fields: Fields<P>, vals: Fields<P>)
    requires PayloadField in fields && fields[PayloadField].Raw?
    requires forall f :: f in fields && f.Header? ==> fields[f].Text?
    requires forall f :: f in vals <==>
        f == PayloadField || f == RetryField || (f.Header? && f.name in TRACE_HEADERS && f in fields)
    requires forall f :: f in vals && f != RetryField ==> vals[f] == fields[f]
    requires vals[RetryField] == Text(Itoa(0))
    ensures vals == Replayed(fields)
  {
    hide Replayed, Itoa;
    ReplayedOthers(fields);
    forall f
      ensures f in vals <==> f in Replayed(fields)
      ensures f in vals ==> vals[f] == Replayed(fields)[f]
    {
      match f
      case Header(k) => ReplayedHeader(fields, k);
      case _ =>
    }
  }

  /** A replayed message is read back with its payload, a zero retry count and its trace context. */
  lemma ReplayRoundTrip<P>(id: nat, fields: Fields<P>)
    requires PayloadField in fields && fields[PayloadField].Raw?
    ensures Decode(id, Replayed(fields)).Ok?
    ensures var t := Decode(id, Replayed(fields)).task;
            t.payload == fields[PayloadField].payload && t.retryCount == 0
              && t.headers == TraceContext(HeadersOf(fields))
    ensures forall k :: k in Decode(id, Replayed(fields)).task.headers <==>
              (k == "traceparent" || k == "tracestate") && Header(k) in fields && fields[Header(k)].Text?
    ensures forall k :: k in Decode(id, Replayed(fields)).task.headers ==>
              Decode(id, Replayed(fields)).task.headers[k] == fields[Header(k)].text
  {
    forall k
      ensures k in HeadersOf(fields) <==> Header(k) in fields && fields[Header(k)].Text?
    {
      assert Header(k).name == k;
    }
    RoundTrip(id, fields[PayloadField].payload, 0, TraceContext(HeadersOf(fields)));
  }
}
