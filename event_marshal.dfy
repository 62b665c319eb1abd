/** The hand-written JSON encoder of the hardware-event envelope
    (package hwevent, event_marshal.go).

    Four nested encoders write onto one shared stream: the Event envelope,
    the versioned Data wrapper, the Redfish event document and each of its
    event records. Every encoder is a method over a `Stream`, proved against
    a function that gives the chunks it appends and the error it returns;
    on an early error return the chunks written so far stay in the stream. */
module HwEvent {
  import opened Wrappers
  import opened JsonStream

  /** The only content type the envelope encoder knows how to write. */
  const ApplicationJSON: string := "application/json"

  /** One Redfish event record. A Go empty string is "not set"; a nil slice
      or raw message is `None`. */
  datatype EventRecord = EventRecord(
    actions: Option<seq<byte>>,
    context: string,
    eventGroupId: int,
    eventId: string,
    eventTimestamp: string,
    message: string,
    messageArgs: Option<seq<string>>,
    oem: Option<seq<byte>>,
    originOfCondition: string,
    severity: string,
    resolution: string,
    eventType: string,
    messageId: string,
    memberId: string)

  /** The Redfish event document. */
  datatype RedfishEvent = RedfishEvent(
    odataContext: string,
    odataType: string,
    actions: Option<seq<byte>>,
    context: string,
    description: string,
    oem: Option<seq<byte>>,
    events: Option<seq<EventRecord>>,
    id: string,
    name: string)

  /** The versioned payload wrapper. */
  datatype Data = Data(version: string, data: Option<RedfishEvent>)

  /** The event envelope. `time` holds the timestamp already rendered by
      Go's `time.Time.String()`; `dataSchema` is "" when unset. */
  datatype Event = Event(
    id: string,
    eventType: string,
    dataContentType: Option<string>,
    time: Option<string>,
    dataSchema: string,
    data: Option<Data>)

  /** The errors the encoders return; wrapping errors keep their cause. */
  datatype Error =
    | UnsupportedContentType
    | DataNotSet
    | DataVersionNotSet
    | WritingData(cause: Error)
    | OdataTypeNotSet
    | EventsNotSet
    | WritingEvent(index: nat, cause: Error)
    | IdNotSet
    | NameNotSet
    | EventTypeNotSet
    | MessageIdNotSet
    | MemberIdNotSet

  /** The text of each error, as `fmt.Errorf` would produce it. A wrapping
      error's text ends with its cause's text, as `%w` formats it. */
  function Message(e: Error): (m: string)
    ensures m != []
    ensures e.WritingData? || e.WritingEvent? ==>
              |Message(e.cause)| < |m| && m[|m| - |Message(e.cause)|..] == Message(e.cause)
  {
    match e
    case UnsupportedContentType => "missing event content type"
    case DataNotSet => "data is not set"
    case DataVersionNotSet => "data version is not set"
    case WritingData(c) => "error writing data: " + Message(c)
    case OdataTypeNotSet => "@odata.type is not set"
    case EventsNotSet => "field Events is not set"
    case WritingEvent(i, c) => "error writing Event[" + Decimal(i) + "]: " + Message(c)
    case IdNotSet => "field Id is not set"
    case NameNotSet => "field Name is not set"
    case EventTypeNotSet => "field EventType is not set"
    case MessageIdNotSet => "field MessageId is not set"
    case MemberIdNotSet => "field MemberId is not set"
  }

  /** `%d` of a non-negative index: decimal digits, with no leading zero. */
  function Decimal(n: nat): (r: string)
    ensures r != [] && (forall k :: 0 <= k < |r| ==> '0' <= r[k] <= '9')
    ensures r[0] == '0' ==> n == 0
  {
    var d := ['0', '1', '2', '3', '4', '5', '6', '7', '8', '9'][n % 10];
    if n < 10 then [d] else Decimal(n / 10) + [d]
  }

  /** The stream contents after an encoder returns, and the error it returned
      (`None` on success). On an error the contents written so far remain. */
  datatype Written = Written(buf: seq<Token>, err: Option<Error>)

  /** A field name followed by its string value: `"name":"v"`. */
  function StrField(name: string, v: string): seq<Token>
  {
    [Field(name), Str(v)]
  }

  /** An optional string field followed by its separator. */
  function OptString(name: string, v: string): seq<Token>
  {
    if v != "" then StrField(name, v) + [More] else []
  }

  /** An optional string field preceded by its separator (envelope style). */
  function SepOptString(name: string, v: string): seq<Token>
  {
    if v != "" then [More] + StrField(name, v) else []
  }

  /** The optional `time` attribute, preceded by its separator. */
  function SepOptTime(t: Option<string>): seq<Token>
  {
    if t.Some? then [More] + StrField("time", t.value) else []
  }

  /** An optional raw blob followed by its separator. */
  function OptRaw(name: string, v: Option<seq<byte>>): seq<Token>
  {
    if v.Some? then [Field(name), Raw(v.value), More] else []
  }

  /** An optional raw blob with no separator after it. */
  function OptRawNoSep(name: string, v: Option<seq<byte>>): seq<Token>
  {
    if v.Some? then [Field(name), Raw(v.value)] else []
  }

  /** The body of the `MessageArgs` array as its loop writes it: a separator
      before every string but the first. */
  function ArgsTokens(args: seq<string>): (r: seq<Token>)
    ensures |r| == if args == [] then 0 else 2 * |args| - 1
    decreases |args|
  {
    if args == [] then []
    else
      var last := |args| - 1;
      ArgsTokens(args[..last]) + (if last > 0 then [More] else []) + [Str(args[last])]
  }

  /** The `MessageArgs` field, written whenever the slice is non-nil. */
  function MessageArgs(v: Option<seq<string>>): (r: seq<Token>)
    ensures v.None? <==> r == []
    ensures v.Some? ==> |r| == |ArgsTokens(v.value)| + 4 && r[0] == Field("MessageArgs") && r[|r| - 1] == More
  {
    if v.Some? then [Field("MessageArgs"), ArrayStart] + ArgsTokens(v.value) + [ArrayEnd, More]
    else []
  }

  /** The stream after the fields of a record that precede its three required
      ones; `EventGroupId` is written unconditionally. */
  function RecordHead(p: seq<Token>, r: EventRecord): (h: seq<Token>)
    ensures p <= h
  {
    p
    + OptRaw("Actions", r.actions)
    + OptString("Context", r.context)
    + [Field("EventGroupId")] + [Int(r.eventGroupId)] + [More]
    + OptString("EventId", r.eventId)
    + OptString("EventTimestamp", r.eventTimestamp)
    + OptString("Message", r.message)
    + MessageArgs(r.messageArgs)
    + OptRaw("Oem", r.oem)
    + OptString("OriginOfCondition", r.originOfCondition)
    + OptString("Severity", r.severity)
    + OptString("Resolution", r.resolution)
  }

  /** writeJSONEventRecord on a stream holding `p`. The object is opened
      before anything is checked; a nil record reports the EventType error. */
  function RecordOut(p: seq<Token>, rec: Option<EventRecord>): (r: Written)
    ensures r.err.Some? ==> r.err.value in {EventTypeNotSet, MessageIdNotSet, MemberIdNotSet}
  {
    match rec
    case None => Written(p + [ObjectStart], Some(EventTypeNotSet))
    case Some(d) =>
      var h1 := RecordHead(p + [ObjectStart], d);
      if d.eventType == "" then Written(h1, Some(EventTypeNotSet))
      else
        var h2 := h1 + StrField("EventType", d.eventType) + [More];
        if d.messageId == "" then Written(h2, Some(MessageIdNotSet))
        else
          var h3 := h2 + StrField("MessageId", d.messageId) + [More];
          if d.memberId == "" then Written(h3, Some(MemberIdNotSet))
          else Written(h3 + StrField("MemberId", d.memberId) + [ObjectEnd], None)
  }

  /** The `Events` loop from record `i` on, on a stream holding `p`:
      records go back to back, and the first record that fails stops the
      loop with its index. */
  function EventsFrom(p: seq<Token>, evs: seq<EventRecord>, i: nat): (r: Written)
    requires i <= |evs|
    ensures r.err.Some? ==> r.err.value.WritingEvent? && i <= r.err.value.index < |evs|
    decreases |evs| - i
  {
    if i == |evs| then Written(p, None)
    else
      var rec := RecordOut(p, Some(evs[i]));
      if rec.err.Some? then Written(rec.buf, Some(WritingEvent(i, rec.err.value)))
      else EventsFrom(rec.buf, evs, i + 1)
  }

  /** The stream after the fields of a Redfish document that precede
      `@odata.type`; `Oem` carries no separator. */
  function RedfishHead(p: seq<Token>, d: RedfishEvent): (h: seq<Token>)
    ensures p <= h
  {
    p
    + OptString("@odata.context", d.odataContext)
    + OptRaw("Actions", d.actions)
    + OptString("Context", d.context)
    + OptString("Description", d.description)
    + OptRawNoSep("Oem", d.oem)
  }

  /** writeJSONRedfishEvent on a stream holding `p`. */
  function RedfishOut(p: seq<Token>, doc: Option<RedfishEvent>): (r: Written)
    ensures r.err.Some? ==> r.err.value.OdataTypeNotSet? || r.err.value.EventsNotSet?
                            || r.err.value.WritingEvent? || r.err.value.IdNotSet? || r.err.value.NameNotSet?
  {
    match doc
    case None => Written(p + [ObjectStart], Some(OdataTypeNotSet))
    case Some(d) =>
      var h1 := RedfishHead(p + [ObjectStart], d);
      if d.odataType == "" then Written(h1, Some(OdataTypeNotSet))
      else
        var h2 := h1 + StrField("@odata.type", d.odataType) + [More];
        if d.events.None? then Written(h2, Some(EventsNotSet))
        else
          var evs := d.events.value;
          var ev := EventsFrom(h2 + [Field("Events")] + [ArrayStart], evs, 0);
          if ev.err.Some? then ev
          else
            var h3 := ev.buf + [ArrayEnd] + [More];
            if d.id == "" then Written(h3, Some(IdNotSet))
            else
              var h4 := h3 + StrField("Id", d.id) + [More];
              if d.name == "" then Written(h4, Some(NameNotSet))
              else Written(h4 + StrField("Name", d.name) + [ObjectEnd], None)
  }

  /** writeJSONData on a stream holding `p`: `version` is written whatever it
      holds, and an error of the document is wrapped. */
  function DataOut(p: seq<Token>, data: Option<Data>): (r: Written)
    ensures r.err.Some? ==> if data.None? then r.err.value == DataVersionNotSet else r.err.value.WritingData?
  {
    match data
    case None => Written(p + [ObjectStart], Some(DataVersionNotSet))
    case Some(d) =>
      var h := p + [ObjectStart] + StrField("version", d.version) + [More] + [Field("data")];
      var inner := RedfishOut(h, d.data);
      if inner.err.Some? then Written(inner.buf, Some(WritingData(inner.err.value)))
      else Written(inner.buf + [ObjectEnd], None)
  }

  /** The envelope attributes written after `{` when the content type `ct`
      is the supported one; the `dataContentType` guard re-reads a value
      already known to be `ApplicationJSON`. */
  function Attributes(p: seq<Token>, e: Event, ct: string): (h: seq<Token>)
    ensures p <= h
  {
    p
    + StrField("id", e.id) + [More]
    + StrField("type", e.eventType)
    + SepOptString("dataContentType", ct)
    + SepOptTime(e.time)
    + SepOptString("dataSchema", e.dataSchema)
  }

  /** WriteJSON on a fresh stream: the attributes are gated on the content
      type being present, and `data` follows a separator in every case. */
  function EventOut(e: Event): (r: Written)
    ensures r.err.Some? ==> r.err.value in {UnsupportedContentType, DataNotSet, DataVersionNotSet}
                            || r.err.value.WritingData?
  {
    if e.dataContentType.Some? && e.dataContentType.value != ApplicationJSON then
      Written([ObjectStart], Some(UnsupportedContentType))
    else
      var h1 := if e.dataContentType.Some?
                then Attributes([ObjectStart], e, e.dataContentType.value)
                else [ObjectStart];
      if e.data.None? then Written(h1, Some(DataNotSet))
      else
        var inner := DataOut(h1 + [More] + [Field("data")], e.data);
        if inner.err.Some? then inner
        else Written(inner.buf + [ObjectEnd], None)
  }

  // The encoders repeat a few write patterns inline; each is one method here.

  method WriteStrField(s: Stream, name: string, v: string)
    modifies s
    ensures s.buf == old(s.buf) + StrField(name, v)
  {
    s.WriteObjectField(name);
    s.WriteString(v);
  }

  method WriteOptString(s: Stream, name: string, v: string)
    modifies s
    ensures s.buf == old(s.buf) + OptString(name, v)
  {
    if v != "" {
      WriteStrField(s, name, v);
      s.WriteMore();
    }
  }

  method WriteSepOptString(s: Stream, name: string, v: string)
    modifies s
    ensures s.buf == old(s.buf) + SepOptString(name, v)
  {
    if v != "" {
      s.WriteMore();
      WriteStrField(s, name, v);
    }
  }

  method WriteSepOptTime(s: Stream, t: Option<string>)
    modifies s
    ensures s.buf == old(s.buf) + SepOptTime(t)
  {
    if t.Some? {
      s.WriteMore();
      WriteStrField(s, "time", t.value);
    }
  }

  method WriteOptRaw(s: Stream, name: string, v: Option<seq<byte>>)
    modifies s
    ensures s.buf == old(s.buf) + OptRaw(name, v)
  {
    if v.Some? {
      s.WriteObjectField(name);
      s.WriteRaw(v.value);
      s.WriteMore();
    }
  }

  method WriteOptRawNoSep(s: Stream, name: string, v: Option<seq<byte>>)
    modifies s
    ensures s.buf == old(s.buf) + OptRawNoSep(name, v)
  {
    if v.Some? {
      s.WriteObjectField(name);
      s.WriteRaw(v.value);
    }
  }

  /** The `MessageArgs` loop: `count` decides whether a separator goes before
      the next string. */
  method WriteMessageArgs(s: Stream, v: Option<seq<string>>)
    modifies s
    ensures s.buf == old(s.buf) + MessageArgs(v)
  {
    if v.Some? {
      var args := v.value;
      s.WriteObjectField("MessageArgs");
      s.WriteArrayStart();
      ghost var arrayStart := s.buf;
      var count := 0;
      for i := 0 to |args|
        invariant count == i
        invariant s.buf == arrayStart + ArgsTokens(args[..i])
      {
        if count > 0 {
          s.WriteMore();
        }
        count := count + 1;
        s.WriteString(args[i]);
        assert args[..i + 1][..i] == args[..i];
      }
      assert args[..|args|] == args;
      s.WriteArrayEnd();
      s.WriteMore();
    }
  }

  method WriteJSONEventRecord(rec: Option<EventRecord>, s: Stream) returns (err: Option<Error>)
    modifies s
    ensures Written(s.buf, err) == RecordOut(old(s.buf), rec)
  {
    s.WriteObjectStart();
    if rec.None? {
      return Some(EventTypeNotSet);
    }
    var d := rec.value;
    WriteOptRaw(s, "Actions", d.actions);
    WriteOptString(s, "Context", d.context);
    s.WriteObjectField("EventGroupId");
    s.WriteInt(d.eventGroupId);
    s.WriteMore();
    WriteOptString(s, "EventId", d.eventId);
    WriteOptString(s, "EventTimestamp", d.eventTimestamp);
    WriteOptString(s, "Message", d.message);
    WriteMessageArgs(s, d.messageArgs);
    WriteOptRaw(s, "Oem", d.oem);
    WriteOptString(s, "OriginOfCondition", d.originOfCondition);
    WriteOptString(s, "Severity", d.severity);
    WriteOptString(s, "Resolution", d.resolution);
    if d.eventType != "" {
      WriteStrField(s, "EventType", d.eventType);
      s.WriteMore();
    } else {
      return Some(EventTypeNotSet);
    }
    if d.messageId != "" {
      WriteStrField(s, "MessageId", d.messageId);
      s.WriteMore();
    } else {
      return Some(MessageIdNotSet);
    }
    if d.memberId != "" {
      WriteStrField(s, "MemberId", d.memberId);
    } else {
      return Some(MemberIdNotSet);
    }
    s.WriteObjectEnd();
    return None;
  }

  method WriteJSONRedfishEvent(doc: Option<RedfishEvent>, s: Stream) returns (err: Option<Error>)
    modifies s
    ensures Written(s.buf, err) == RedfishOut(old(s.buf), doc)
  {
    s.WriteObjectStart();
    if doc.None? {
      return Some(OdataTypeNotSet);
    }
    var d := doc.value;
    WriteOptString(s, "@odata.context", d.odataContext);
    WriteOptRaw(s, "Actions", d.actions);
    WriteOptString(s, "Context", d.context);
    WriteOptString(s, "Description", d.description);
    WriteOptRawNoSep(s, "Oem", d.oem);
    if d.odataType != "" {
      WriteStrField(s, "@odata.type", d.odataType);
      s.WriteMore();
    } else {
      return Some(OdataTypeNotSet);
    }
    if d.events.Some? {
      var evs := d.events.value;
      s.WriteObjectField("Events");
      s.WriteArrayStart();
      ghost var arrayStart := s.buf;
      for i := 0 to |evs|
        invariant EventsFrom(s.buf, evs, i) == EventsFrom(arrayStart, evs, 0)
      {
        var e := WriteJSONEventRecord(Some(evs[i]), s);
        if e.Some? {
          return Some(WritingEvent(i, e.value));
        }
      }
      s.WriteArrayEnd();
      s.WriteMore();
    } else {
      return Some(EventsNotSet);
    }
    if d.id != "" {
      WriteStrField(s, "Id", d.id);
      s.WriteMore();
    } else {
      return Some(IdNotSet);
    }
    if d.name != "" {
      WriteStrField(s, "Name", d.name);
    } else {
      return Some(NameNotSet);
    }
    s.WriteObjectEnd();
    return None;
  }

  method WriteJSONData(data: Option<Data>, s: Stream) returns (err: Option<Error>)
    modifies s
    ensures Written(s.buf, err) == DataOut(old(s.buf), data)
  {
    s.WriteObjectStart();
    if data.None? {
      return Some(DataVersionNotSet);
    }
    var d := data.value;
    WriteStrField(s, "version", d.version);
    s.WriteMore();
    s.WriteObjectField("data");
    var e := WriteJSONRedfishEvent(d.data, s);
    if e.Some? {
      return Some(WritingData(e.value));
    }
    s.WriteObjectEnd();
    return None;
  }

  /** WriteJSON: encodes an event on a stream of its own and returns what the
      stream holds when the encoder returns. */
  method WriteJSON(e: Event) returns (out: seq<Token>, err: Option<Error>)
    ensures Written(out, err) == EventOut(e)
  {
    var s := new Stream();
    s.WriteObjectStart();
    assert s.buf == [ObjectStart];
    if e.dataContentType.Some? {
      var ct := e.dataContentType.value;
      if ct == ApplicationJSON {
        WriteStrField(s, "id", e.id);
        s.WriteMore();
        WriteStrField(s, "type", e.eventType);
        WriteSepOptString(s, "dataContentType", ct);
        WriteSepOptTime(s, e.time);
        WriteSepOptString(s, "dataSchema", e.dataSchema);
      } else {
        return s.buf, Some(UnsupportedContentType);
      }
    }
    if e.data.Some? {
      s.WriteMore();
      s.WriteObjectField("data");
      var inner := WriteJSONData(e.data, s);
      if inner.Some? {
        return s.buf, inner;
      }
    } else {
      return s.buf, Some(DataNotSet);
    }
    s.WriteObjectEnd();
    return s.buf, None;
  }

  /** WriteDataJSON: the payload encoder on a stream of its own. */
  method WriteDataJSON(data: Option<Data>) returns (out: seq<Token>, err: Option<Error>)
    ensures Written(out, err) == DataOut([], data)
  {
    var s := new Stream();
    err := WriteJSONData(data, s);
    out := s.buf;
  }
}
