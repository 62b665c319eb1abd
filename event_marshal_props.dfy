/** Properties of the hwevent encoders.

    The encoders' outputs are compared with two independent descriptions:
    the errors with the required fields each level checks, in the order it
    checks them; the successful outputs with the reference serialization
    of the JSON value whose members are exactly the fields that are set. */
module HwEventProps {
  import opened Wrappers
  import opened JsonStream
  import opened HwEvent

  // ---------------------------------------------------------------------
  // Error texts: the index in "error writing Event[%d]" reads back

  predicate AllDigits(s: string)
  {
    forall k :: 0 <= k < |s| ==> '0' <= s[k] <= '9'
  }

  /** The number a string of decimal digits denotes. */
  function DigitsValue(s: string): nat
    requires AllDigits(s)
    decreases |s|
  {
    if s == [] then 0
    else DigitsValue(s[..|s| - 1]) * 10 + (s[|s| - 1] as int - '0' as int)
  }

  /** `Decimal` writes `n` so that reading its digits back gives `n`. */
  lemma {:induction false} DecimalRoundTrip(n: nat)
    ensures AllDigits(Decimal(n)) && DigitsValue(Decimal(n)) == n
  {
    var r := Decimal(n);
    if n >= 10 {
      DecimalRoundTrip(n / 10);
      assert r[..|r| - 1] == Decimal(n / 10);
    }
  }

  /** Texts that differ only in one middle part differ. */
  lemma MiddleDiffers(q: string, x: string, y: string, z1: string, z2: string)
    requires x != y
    ensures q + x + z1 + z2 != q + y + z1 + z2
  {
    if |x| == |y| {
      var k :| 0 <= k < |x| && x[k] != y[k];
      assert (q + x + z1 + z2)[|q| + k] == x[k];
      assert (q + y + z1 + z2)[|q| + k] == y[k];
    }
  }

  /** Different record indices give different error texts. */
  lemma WritingEventIndexShown(i: nat, j: nat, c: Error)
    requires i != j
    ensures Message(WritingEvent(i, c)) != Message(WritingEvent(j, c))
  {
    DecimalRoundTrip(i);
    DecimalRoundTrip(j);
    MiddleDiffers("error writing Event[", Decimal(i), Decimal(j), "]: ", Message(c));
  }


  // ---------------------------------------------------------------------
  // Reference values: the JSON object each level stands for

  function StrMember(name: string, v: string): seq<Member>
  {
    if v != "" then [Member(name, JString(v))] else []
  }

  function RawMember(name: string, v: Option<seq<byte>>): seq<Member>
  {
    if v.Some? then [Member(name, JRaw(v.value))] else []
  }

  function Strings(args: seq<string>): (r: seq<Json>)
    ensures |r| == |args|
  {
    seq(|args|, i requires 0 <= i < |args| => JString(args[i]))
  }

  function ArgsMember(v: Option<seq<string>>): seq<Member>
  {
    if v.Some? then [Member("MessageArgs", JArray(Strings(v.value)))] else []
  }

  /** The optional members of a record and `EventGroupId`, in write order. */
  function RecordHeadMembers(r: EventRecord): seq<Member>
  {
    RawMember("Actions", r.actions)
    + StrMember("Context", r.context)
    + [Member("EventGroupId", JInt(r.eventGroupId))]
    + StrMember("EventId", r.eventId)
    + StrMember("EventTimestamp", r.eventTimestamp)
    + StrMember("Message", r.message)
    + ArgsMember(r.messageArgs)
    + RawMember("Oem", r.oem)
    + StrMember("OriginOfCondition", r.originOfCondition)
    + StrMember("Severity", r.severity)
    + StrMember("Resolution", r.resolution)
  }

  function RecordValue(r: EventRecord): Json
  {
    JObject(RecordHeadMembers(r)
            + [Member("EventType", JString(r.eventType))]
            + [Member("MessageId", JString(r.messageId))]
            + [Member("MemberId", JString(r.memberId))])
  }

  /** The record's required fields are all set. */
  predicate RecordComplete(r: EventRecord)
  {
    r.eventType != "" && r.messageId != "" && r.memberId != ""
  }

  // ---------------------------------------------------------------------
  // MessageArgs

  /** n strings separated by exactly n - 1 separators: strings at the even
      positions, in order, and separators at the odd ones. */
  lemma {:induction false} ArgsTokensShape(args: seq<string>)
    ensures |ArgsTokens(args)| == if args == [] then 0 else 2 * |args| - 1
    ensures forall k :: 0 <= k < |ArgsTokens(args)| ==>
              ArgsTokens(args)[k] == if k % 2 == 0 then Str(args[k / 2]) else More
    decreases |args|
  {
    if args != [] {
      var last := |args| - 1;
      var init := args[..last];
      ArgsTokensShape(init);
      var t := ArgsTokens(args);
      var ti := ArgsTokens(init);
      assert t == ti + (if last > 0 then [More] else []) + [Str(args[last])];
      forall k | 0 <= k < |t|
        ensures t[k] == if k % 2 == 0 then Str(args[k / 2]) else More
      {
        if k < |ti| {
          assert t[k] == ti[k];
          assert k % 2 == 0 ==> init[k / 2] == args[k / 2];
        } else if k == |t| - 1 {
          assert k == 2 * last;
        } else {
          assert k == 2 * last - 1;
        }
      }
    }
  }

  /** The loop writes exactly the reference serialization of an array of
      strings. */
  lemma {:induction false} ArgsTokensSerialize(args: seq<string>)
    ensures ArgsTokens(args) == Items(Strings(args))
    decreases |args|
  {
    if |args| == 1 {
      assert Strings(args) == [JString(args[0])];
    } else if |args| > 1 {
      var last := |args| - 1;
      ArgsTokensSerialize(args[..last]);
      assert Strings(args) == Strings(args[..last]) + [JString(args[last])];
      ItemsSnoc(Strings(args[..last]), JString(args[last]));
    }
  }

  // ---------------------------------------------------------------------
  // The record encoder

  lemma OptStringIsSep(name: string, v: string)
    ensures OptString(name, v) == Sep(StrMember(name, v))
  {
    MembersSingle(Member(name, JString(v)));
  }

  lemma OptRawIsSep(name: string, v: Option<seq<byte>>)
    ensures OptRaw(name, v) == Sep(RawMember(name, v))
  {
    if v.Some? {
      MembersSingle(Member(name, JRaw(v.value)));
    }
  }

  lemma MessageArgsIsSep(v: Option<seq<string>>)
    ensures MessageArgs(v) == Sep(ArgsMember(v))
  {
    if v.Some? {
      ArgsTokensSerialize(v.value);
      MembersSingle(Member("MessageArgs", JArray(Strings(v.value))));
    }
  }

  /** One more group of members, written with its separator. */
  lemma Push(q: seq<Token>, x: seq<Token>, a: seq<Member>, c: seq<Token>, m: seq<Member>)
    requires x == q + Sep(a) && c == Sep(m)
    ensures x + c == q + Sep(a + m)
  {
    SepStep(q, a, m);
  }

  /** A required string member followed by a separator. */
  lemma PushField(q: seq<Token>, x: seq<Token>, a: seq<Member>, name: string, v: string)
    requires x == q + Sep(a)
    ensures x + StrField(name, v) + [More] == q + Sep(a + [Member(name, JString(v))])
  {
    MembersSingle(Member(name, JString(v)));
    assert x + StrField(name, v) + [More] == x + Sep([Member(name, JString(v))]);
    SepStep(q, a, [Member(name, JString(v))]);
  }

  /** The last string member, followed by the end of the object. */
  lemma CloseField(q: seq<Token>, x: seq<Token>, a: seq<Member>, name: string, v: string)
    requires x == q + Sep(a)
    ensures x + StrField(name, v) + [ObjectEnd] == q + Members(a + [Member(name, JString(v))]) + [ObjectEnd]
  {
    MembersSingle(Member(name, JString(v)));
    assert StrField(name, v) == Members([Member(name, JString(v))]);
    SepClose(q, a, [Member(name, JString(v))]);
  }

  lemma RecordHeadIsSep(q: seq<Token>, r: EventRecord)
    ensures RecordHead(q, r) == q + Sep(RecordHeadMembers(r))
  {
    var a := RawMember("Actions", r.actions);
    var x := q + OptRaw("Actions", r.actions);
    OptRawIsSep("Actions", r.actions);
    assert x == q + Sep(a);
    OptStringIsSep("Context", r.context);
    Push(q, x, a, OptString("Context", r.context), StrMember("Context", r.context));
    x, a := x + OptString("Context", r.context), a + StrMember("Context", r.context);
    var g := [Member("EventGroupId", JInt(r.eventGroupId))];
    MembersSingle(g[0]);
    assert x + [Field("EventGroupId")] + [Int(r.eventGroupId)] + [More] == x + Sep(g);
    Push(q, x, a, Sep(g), g);
    x, a := x + Sep(g), a + g;
    OptStringIsSep("EventId", r.eventId);
    Push(q, x, a, OptString("EventId", r.eventId), StrMember("EventId", r.eventId));
    x, a := x + OptString("EventId", r.eventId), a + StrMember("EventId", r.eventId);
    OptStringIsSep("EventTimestamp", r.eventTimestamp);
    Push(q, x, a, OptString("EventTimestamp", r.eventTimestamp), StrMember("EventTimestamp", r.eventTimestamp));
    x, a := x + OptString("EventTimestamp", r.eventTimestamp), a + StrMember("EventTimestamp", r.eventTimestamp);
    OptStringIsSep("Message", r.message);
    Push(q, x, a, OptString("Message", r.message), StrMember("Message", r.message));
    x, a := x + OptString("Message", r.message), a + StrMember("Message", r.message);
    MessageArgsIsSep(r.messageArgs);
    Push(q, x, a, MessageArgs(r.messageArgs), ArgsMember(r.messageArgs));
    x, a := x + MessageArgs(r.messageArgs), a + ArgsMember(r.messageArgs);
    OptRawIsSep("Oem", r.oem);
    Push(q, x, a, OptRaw("Oem", r.oem), RawMember("Oem", r.oem));
    x, a := x + OptRaw("Oem", r.oem), a + RawMember("Oem", r.oem);
    OptStringIsSep("OriginOfCondition", r.originOfCondition);
    Push(q, x, a, OptString("OriginOfCondition", r.originOfCondition), StrMember("OriginOfCondition", r.originOfCondition));
    x, a := x + OptString("OriginOfCondition", r.originOfCondition), a + StrMember("OriginOfCondition", r.originOfCondition);
    OptStringIsSep("Severity", r.severity);
    Push(q, x, a, OptString("Severity", r.severity), StrMember("Severity", r.severity));
    x, a := x + OptString("Severity", r.severity), a + StrMember("Severity", r.severity);
    OptStringIsSep("Resolution", r.resolution);
    Push(q, x, a, OptString("Resolution", r.resolution), StrMember("Resolution", r.resolution));
  }

  /** A record whose required fields are set is written as the reference
      serialization of exactly its set fields, in write order. */
  lemma RecordWellFormed(p: seq<Token>, r: EventRecord)
    requires RecordComplete(r)
    ensures RecordOut(p, Some(r)) == Written(p + Serialize(RecordValue(r)), None)
  {
    var q := p + [ObjectStart];
    var a := RecordHeadMembers(r);
    RecordHeadIsSep(q, r);
    var x := RecordHead(q, r);
    PushField(q, x, a, "EventType", r.eventType);
    x, a := x + StrField("EventType", r.eventType) + [More], a + [Member("EventType", JString(r.eventType))];
    PushField(q, x, a, "MessageId", r.messageId);
    x, a := x + StrField("MessageId", r.messageId) + [More], a + [Member("MessageId", JString(r.messageId))];
    CloseField(q, x, a, "MemberId", r.memberId);
    ObjectWrap(p, a + [Member("MemberId", JString(r.memberId))]);
  }

  // ---------------------------------------------------------------------
  // Errors: the first required field that is missing, in check order

  /** The first error of a list of required fields, each given with the
      error its absence reports; `None` when every one is set. */
  function FirstMissing(req: seq<(string, Error)>): (e: Option<Error>)
    ensures e.None? <==> forall k :: 0 <= k < |req| ==> req[k].0 != ""
    ensures e.Some? ==> exists k :: 0 <= k < |req| && req[k].0 == "" && e.value == req[k].1
                                  && forall j :: 0 <= j < k ==> req[j].0 != ""
    decreases |req|
  {
    if req == [] then None
    else if req[0].0 == "" then Some(req[0].1)
    else
      var rest := FirstMissing(req[1..]);
      assert forall k :: 1 <= k < |req| ==> req[k] == req[1..][k - 1];
      rest
  }

  /** A record's required fields in the order the encoder checks them. */
  function RecordRequired(r: EventRecord): seq<(string, Error)>
  {
    [(r.eventType, EventTypeNotSet), (r.messageId, MessageIdNotSet), (r.memberId, MemberIdNotSet)]
  }

  /** The error a record reports; a nil record reports the EventType error. */
  function RecordError(rec: Option<EventRecord>): (e: Option<Error>)
    ensures e.None? <==> rec.Some? && RecordComplete(rec.value)
  {
    if rec.None? then Some(EventTypeNotSet)
    else
      var req := RecordRequired(rec.value);
      assert req[0].0 == rec.value.eventType && req[1].0 == rec.value.messageId && req[2].0 == rec.value.memberId;
      FirstMissing(req)
  }

  /** The record encoder reports the first missing required field and
      nothing else, whatever the stream holds; it succeeds exactly on the
      records whose required fields are all set. */
  lemma RecordErrorOrder(p: seq<Token>, rec: Option<EventRecord>)
    ensures RecordOut(p, rec).err == RecordError(rec)
    ensures RecordOut(p, rec).err.None? <==> rec.Some? && RecordComplete(rec.value)
  {
    if rec.Some? {
      var r := rec.value;
      var req := RecordRequired(r);
      assert req[1..] == [req[1], req[2]];
      assert req[1..][1..] == [req[2]];
      assert req[1..][1..][1..] == [];
      if r.eventType != "" {
        assert FirstMissing(req) == FirstMissing(req[1..]);
        if r.messageId != "" {
          assert FirstMissing(req[1..]) == FirstMissing(req[1..][1..]);
          if r.memberId != "" {
            assert FirstMissing(req[1..][1..]) == FirstMissing(req[1..][1..][1..]);
          }
        }
      }
    }
  }

  /** `EventGroupId` is written for every record, even one that is then
      rejected: its name and its value are in the record's own output, side
      by side. */
  lemma EventGroupIdAlwaysWritten(p: seq<Token>, r: EventRecord)
    ensures var buf := RecordOut(p, Some(r)).buf;
            exists k :: |p| < k < |buf| - 1 && buf[k] == Field("EventGroupId") && buf[k + 1] == Int(r.eventGroupId)
  {
    var q := p + [ObjectStart];
    var x := q + OptRaw("Actions", r.actions) + OptString("Context", r.context);
    var g := x + [Field("EventGroupId")] + [Int(r.eventGroupId)];
    var h := RecordHead(q, r);
    assert g <= h;
    var buf := RecordOut(p, Some(r)).buf;
    assert h <= buf;
    var k := |x|;
    assert buf[k] == g[k] && buf[k + 1] == g[k + 1];
  }

  // ---------------------------------------------------------------------
  // What is written stays written

  lemma RecordOutExtends(p: seq<Token>, rec: Option<EventRecord>)
    ensures p + [ObjectStart] <= RecordOut(p, rec).buf
  {
    if rec.Some? {
      var d, q := rec.value, p + [ObjectStart];
      var h1 := RecordHead(q, d);
      assert q <= h1;
      if d.eventType != "" {
        var h2 := h1 + StrField("EventType", d.eventType) + [More];
        assert q <= h2;
        if d.messageId != "" {
          var h3 := h2 + StrField("MessageId", d.messageId) + [More];
          assert q <= h3;
          if d.memberId != "" {
            assert q <= h3 + StrField("MemberId", d.memberId) + [ObjectEnd];
          }
        }
      }
    }
  }

  lemma {:induction false} EventsFromExtends(p: seq<Token>, evs: seq<EventRecord>, i: nat)
    requires i <= |evs|
    ensures p <= EventsFrom(p, evs, i).buf
    decreases |evs| - i
  {
    if i < |evs| {
      var rec := RecordOut(p, Some(evs[i]));
      RecordOutExtends(p, Some(evs[i]));
      if rec.err.None? {
        EventsFromExtends(rec.buf, evs, i + 1);
      }
    }
  }

  /** Once `@odata.type` is written, the document encoder only appends. */
  lemma RedfishTypeStays(p: seq<Token>, d: RedfishEvent)
    requires d.odataType != ""
    ensures RedfishHead(p + [ObjectStart], d) + StrField("@odata.type", d.odataType) + [More]
            <= RedfishOut(p, Some(d)).buf
  {
    var h2 := RedfishHead(p + [ObjectStart], d) + StrField("@odata.type", d.odataType) + [More];
    if d.events.Some? {
      var a := h2 + [Field("Events")] + [ArrayStart];
      var ev := EventsFrom(a, d.events.value, 0);
      EventsFromExtends(a, d.events.value, 0);
      assert h2 <= ev.buf;
      if ev.err.None? {
        var h3 := ev.buf + [ArrayEnd] + [More];
        assert h2 <= h3;
        if d.id != "" {
          var h4 := h3 + StrField("Id", d.id) + [More];
          assert h2 <= h4;
          if d.name != "" {
            assert h2 <= h4 + StrField("Name", d.name) + [ObjectEnd];
          }
        }
      }
    }
  }

  /** The document encoder opens an object first and only appends. */
  lemma RedfishOutExtends(p: seq<Token>, doc: Option<RedfishEvent>)
    ensures p + [ObjectStart] <= RedfishOut(p, doc).buf
  {
    if doc.Some? && doc.value.odataType != "" {
      var d := doc.value;
      var q := p + [ObjectStart];
      assert q <= RedfishHead(q, d) + StrField("@odata.type", d.odataType) + [More];
      RedfishTypeStays(p, d);
    }
  }


  lemma DataOutExtends(p: seq<Token>, data: Option<Data>)
    ensures p + [ObjectStart] <= DataOut(p, data).buf
  {
    if data.Some? {
      var d := data.value;
      var h := p + [ObjectStart] + StrField("version", d.version) + [More] + [Field("data")];
      RedfishOutExtends(h, d.data);
      assert p + [ObjectStart] <= h;
    }
  }

  // ---------------------------------------------------------------------
  // The Events array

  /** The index of the first record from `i` on whose required fields are
      not all set, or `|evs|` when there is none. */
  function FirstIncomplete(evs: seq<EventRecord>, i: nat): (k: nat)
    requires i <= |evs|
    ensures i <= k <= |evs|
    ensures forall j :: i <= j < k ==> RecordComplete(evs[j])
    ensures k < |evs| ==> !RecordComplete(evs[k])
    decreases |evs| - i
  {
    if i == |evs| || !RecordComplete(evs[i]) then i else FirstIncomplete(evs, i + 1)
  }

  /** The loop stops at the first incomplete record and reports the error
      that record reports, with its index; it reports nothing when every
      record is complete. */
  lemma {:induction false} EventsErrorFirst(p: seq<Token>, evs: seq<EventRecord>, i: nat)
    requires i <= |evs|
    ensures var k := FirstIncomplete(evs, i);
            EventsFrom(p, evs, i).err
            == if k < |evs| then Some(WritingEvent(k, RecordError(Some(evs[k])).value)) else None
    decreases |evs| - i
  {
    if i < |evs| {
      RecordErrorOrder(p, Some(evs[i]));
      if RecordComplete(evs[i]) {
        EventsErrorFirst(RecordOut(p, Some(evs[i])).buf, evs, i + 1);
      }
    }
  }

  /** The reference values of a list of records. */
  function RecordValues(evs: seq<EventRecord>): (vs: seq<Json>)
    ensures |vs| == |evs|
    ensures forall k :: 0 <= k < |evs| ==> vs[k] == RecordValue(evs[k])
  {
    seq(|evs|, k requires 0 <= k < |evs| => RecordValue(evs[k]))
  }

  /** One complete record and the loop goes on right after its object. */
  lemma EventsStep(p: seq<Token>, evs: seq<EventRecord>, i: nat)
    requires i < |evs| && RecordComplete(evs[i])
    ensures EventsFrom(p, evs, i) == EventsFrom(p + Serialize(RecordValue(evs[i])), evs, i + 1)
  {
    RecordWellFormed(p, evs[i]);
  }

  lemma RecordValuesTail(evs: seq<EventRecord>, i: nat)
    requires i < |evs|
    ensures RecordValues(evs[i..]) == [RecordValue(evs[i])] + RecordValues(evs[i + 1..])
  {
    var vs := RecordValues(evs[i..]);
    var ws := [RecordValue(evs[i])] + RecordValues(evs[i + 1..]);
    assert |vs| == |ws|;
    forall k | 0 <= k < |vs|
      ensures vs[k] == ws[k]
    {
      assert evs[i..][k] == evs[i + k];
      if k > 0 {
        assert evs[i + 1..][k - 1] == evs[i + k];
      }
    }
  }

  lemma ConcatCons(p: seq<Token>, v: Json, vs: seq<Json>)
    ensures p + Serialize(v) + Concat(vs) == p + Concat([v] + vs)
  {
    assert ([v] + vs)[1..] == vs;
  }

  /** When every record is complete, the records are written one after the
      other with nothing between them. */
  lemma {:induction false} EventsBackToBack(p: seq<Token>, evs: seq<EventRecord>, i: nat)
    requires i <= |evs|
    requires forall j :: i <= j < |evs| ==> RecordComplete(evs[j])
    ensures EventsFrom(p, evs, i) == Written(p + Concat(RecordValues(evs[i..])), None)
    decreases |evs| - i
  {
    if i == |evs| {
      assert RecordValues(evs[i..]) == [];
    } else {
      var v := RecordValue(evs[i]);
      EventsStep(p, evs, i);
      EventsBackToBack(p + Serialize(v), evs, i + 1);
      RecordValuesTail(evs, i);
      ConcatCons(p, v, RecordValues(evs[i + 1..]));
    }
  }

  /** Two or more records are never comma separated: the array body is
      shorter than the reference serialization of the same array. */
  lemma RecordsNotCommaSeparated(evs: seq<EventRecord>)
    requires |evs| >= 2
    ensures Concat(RecordValues(evs)) != Items(RecordValues(evs))
  {
    ItemsLength(RecordValues(evs));
  }

  // ---------------------------------------------------------------------
  // The Redfish document

  /** The document's required fields are all set, `Events` included, and
      every record in it is complete. */
  predicate RedfishComplete(d: RedfishEvent)
  {
    && d.odataType != ""
    && d.events.Some?
    && (forall j :: 0 <= j < |d.events.value| ==> RecordComplete(d.events.value[j]))
    && d.id != ""
    && d.name != ""
  }

  /** The error a document reports: `@odata.type` first (a nil document
      reports it too), then a nil `Events`, then the first failing record
      with its index, then `Id`, then `Name`. */
  function RedfishError(doc: Option<RedfishEvent>): (e: Option<Error>)
    ensures e.None? <==> doc.Some? && RedfishComplete(doc.value)
  {
    if doc.None? || doc.value.odataType == "" then Some(OdataTypeNotSet)
    else
      var d := doc.value;
      if d.events.None? then Some(EventsNotSet)
      else
        var evs := d.events.value;
        var k := FirstIncomplete(evs, 0);
        if k < |evs| then Some(WritingEvent(k, RecordError(Some(evs[k])).value))
        else
          var req := [(d.id, IdNotSet), (d.name, NameNotSet)];
          assert req[0].0 == d.id && req[1].0 == d.name;
          FirstMissing(req)
  }

  /** The document encoder reports exactly the error of that order,
      whatever the stream holds. */
  lemma RedfishErrorOrder(p: seq<Token>, doc: Option<RedfishEvent>)
    ensures RedfishOut(p, doc).err == RedfishError(doc)
  {
    if doc.Some? && doc.value.odataType != "" && doc.value.events.Some? {
      var d := doc.value;
      var h2 := RedfishHead(p + [ObjectStart], d) + StrField("@odata.type", d.odataType) + [More];
      EventsErrorFirst(h2 + [Field("Events")] + [ArrayStart], d.events.value, 0);
      var req := [(d.id, IdNotSet), (d.name, NameNotSet)];
      assert req[1..] == [req[1]];
      assert req[1..][1..] == [];
      if d.id != "" {
        assert FirstMissing(req) == FirstMissing(req[1..]);
        if d.name != "" {
          assert FirstMissing(req[1..]) == FirstMissing(req[1..][1..]);
        }
      }
    }
  }

  /** The optional string and blob members a document writes before `Oem`. */
  function RedfishOptionalMembers(d: RedfishEvent): seq<Member>
  {
    StrMember("@odata.context", d.odataContext)
    + RawMember("Actions", d.actions)
    + StrMember("Context", d.context)
    + StrMember("Description", d.description)
  }

  function TypeMember(d: RedfishEvent): Member
  {
    Member("@odata.type", JString(d.odataType))
  }

  /** The members of a document that precede `Events`, in write order. */
  function RedfishHeadMembers(d: RedfishEvent): seq<Member>
  {
    RedfishOptionalMembers(d) + RawMember("Oem", d.oem) + [TypeMember(d)]
  }

  function RedfishValue(d: RedfishEvent): Json
    requires d.events.Some?
  {
    JObject(RedfishHeadMembers(d)
            + [Member("Events", JArray(RecordValues(d.events.value)))]
            + [Member("Id", JString(d.id))]
            + [Member("Name", JString(d.name))])
  }

  /** Everything up to the opening of the `Events` array, in the reference
      serialization. */
  function EventsOpen(p: seq<Token>, d: RedfishEvent): seq<Token>
  {
    p + [ObjectStart] + Sep(RedfishHeadMembers(d)) + [Field("Events")] + [ArrayStart]
  }

  /** Everything up to the opening of the `Events` array, as the encoder
      writes it: `Oem`, when set, goes out with no separator after it. */
  function EncodedOpen(p: seq<Token>, d: RedfishEvent): seq<Token>
  {
    p + [ObjectStart] + Sep(RedfishOptionalMembers(d)) + OptRawNoSep("Oem", d.oem) + Sep([TypeMember(d)])
    + [Field("Events")] + [ArrayStart]
  }

  /** Everything from the closing of the `Events` array on. */
  function RedfishTail(x: seq<Token>, d: RedfishEvent): seq<Token>
  {
    x + [ArrayEnd] + [More] + StrField("Id", d.id) + [More] + StrField("Name", d.name) + [ObjectEnd]
  }

  /** The fields up to `@odata.type`: the set optional members, each with its
      separator, then `Oem` when set, with none, then `@odata.type` with its
      separator. */
  lemma RedfishHeadIsSep(q: seq<Token>, d: RedfishEvent)
    ensures RedfishHead(q, d) + StrField("@odata.type", d.odataType) + [More]
            == q + Sep(RedfishOptionalMembers(d)) + OptRawNoSep("Oem", d.oem) + Sep([TypeMember(d)])
  {
    var a := StrMember("@odata.context", d.odataContext);
    var x := q + OptString("@odata.context", d.odataContext);
    OptStringIsSep("@odata.context", d.odataContext);
    assert x == q + Sep(a);
    OptRawIsSep("Actions", d.actions);
    Push(q, x, a, OptRaw("Actions", d.actions), RawMember("Actions", d.actions));
    x, a := x + OptRaw("Actions", d.actions), a + RawMember("Actions", d.actions);
    OptStringIsSep("Context", d.context);
    Push(q, x, a, OptString("Context", d.context), StrMember("Context", d.context));
    x, a := x + OptString("Context", d.context), a + StrMember("Context", d.context);
    OptStringIsSep("Description", d.description);
    Push(q, x, a, OptString("Description", d.description), StrMember("Description", d.description));
    x, a := x + OptString("Description", d.description), a + StrMember("Description", d.description);
    assert x == q + Sep(RedfishOptionalMembers(d));
    MembersSingle(TypeMember(d));
    Regroup(x, OptRawNoSep("Oem", d.oem), StrField("@odata.type", d.odataType), [More]);
    Regroup(x + OptRawNoSep("Oem", d.oem), [], StrField("@odata.type", d.odataType), [More]);
  }

  /** A complete document is written as its members in order, `Oem` with no
      separator after it and the records inside `Events` back to back. */
  lemma RedfishEncoderShape(p: seq<Token>, d: RedfishEvent)
    requires RedfishComplete(d)
    ensures RedfishOut(p, Some(d))
            == Written(RedfishTail(EncodedOpen(p, d) + Concat(RecordValues(d.events.value)), d), None)
  {
    var evs := d.events.value;
    RedfishHeadIsSep(p + [ObjectStart], d);
    assert evs[0..] == evs;
    EventsBackToBack(EncodedOpen(p, d), evs, 0);
  }

  /** Without `Oem` the encoder opens `Events` exactly as the reference does. */
  lemma OpenWithoutOem(p: seq<Token>, d: RedfishEvent)
    requires d.oem.None?
    ensures EncodedOpen(p, d) == EventsOpen(p, d)
  {
    var o := RedfishOptionalMembers(d);
    assert RedfishHeadMembers(d) == o + [TypeMember(d)];
    SepStep(p + [ObjectStart], o, [TypeMember(d)]);
  }

  /** With `Oem` the encoder writes one chunk fewer before `Events` than the
      reference: the missing separator. */
  lemma OpenWithOem(p: seq<Token>, d: RedfishEvent)
    requires d.oem.Some?
    ensures |EncodedOpen(p, d)| + 1 == |EventsOpen(p, d)|
  {
    var o := RedfishOptionalMembers(d);
    var m := Member("Oem", JRaw(d.oem.value));
    assert RedfishHeadMembers(d) == o + [m] + [TypeMember(d)];
    SepStep([], o, [m]);
    SepStep([], o + [m], [TypeMember(d)]);
    MembersSingle(m);
    MembersSingle(TypeMember(d));
  }

  /** An array member written with its separator. */
  lemma ArrayMemberIsSep(name: string, vs: seq<Json>)
    ensures Sep([Member(name, JArray(vs))]) == [Field(name)] + [ArrayStart] + Items(vs) + [ArrayEnd] + [More]
  {
    MembersSingle(Member(name, JArray(vs)));
  }

  /** An object whose members are `h`, an array and two strings. */
  lemma ObjectWithArray(p: seq<Token>, h: seq<Member>, name: string, vs: seq<Json>, id: string, nm: string)
    ensures p + Serialize(JObject(h + [Member(name, JArray(vs))] + [Member("Id", JString(id))] + [Member("Name", JString(nm))]))
            == p + [ObjectStart] + Sep(h) + [Field(name)] + [ArrayStart] + Items(vs)
               + [ArrayEnd] + [More] + StrField("Id", id) + [More] + StrField("Name", nm) + [ObjectEnd]
  {
    var q := p + [ObjectStart];
    var ev := [Member(name, JArray(vs))];
    ArrayMemberIsSep(name, vs);
    Push(q, q + Sep(h), h, Sep(ev), ev);
    var x1 := q + Sep(h) + Sep(ev);
    assert x1 == q + Sep(h) + [Field(name)] + [ArrayStart] + Items(vs) + [ArrayEnd] + [More];
    PushField(q, x1, h + ev, "Id", id);
    var x2 := x1 + StrField("Id", id) + [More];
    CloseField(q, x2, h + ev + [Member("Id", JString(id))], "Name", nm);
    ObjectWrap(p, h + ev + [Member("Id", JString(id))] + [Member("Name", JString(nm))]);
  }

  /** The reference serialization of the same document differs only in
      separating the records by commas. */
  lemma RedfishReferenceShape(p: seq<Token>, d: RedfishEvent)
    requires d.events.Some?
    ensures p + Serialize(RedfishValue(d))
            == RedfishTail(EventsOpen(p, d) + Items(RecordValues(d.events.value)), d)
  {
    ObjectWithArray(p, RedfishHeadMembers(d), "Events", RecordValues(d.events.value), d.id, d.name);
  }

  lemma ConcatShort(vs: seq<Json>)
    requires |vs| <= 1
    ensures Concat(vs) == Items(vs)
  {
    if |vs| == 1 {
      assert vs[1..] == [];
    }
  }

  /** An array body is never shorter than its items written back to back. */
  lemma ConcatNotLonger(vs: seq<Json>)
    ensures |Concat(vs)| <= |Items(vs)|
  {
    if vs != [] {
      ItemsLength(vs);
    }
  }

  /** A complete document is written as its reference serialization exactly
      when it has no `Oem` and holds at most one record. */
  lemma RedfishWellFormed(p: seq<Token>, d: RedfishEvent)
    requires RedfishComplete(d)
    ensures RedfishOut(p, Some(d)) == Written(p + Serialize(RedfishValue(d)), None)
            <==> d.oem.None? && |d.events.value| <= 1
  {
    RedfishEncoderShape(p, d);
    RedfishReferenceShape(p, d);
    var vs := RecordValues(d.events.value);
    var e := EncodedOpen(p, d);
    var a := EventsOpen(p, d);
    if d.oem.None? {
      OpenWithoutOem(p, d);
      if |vs| <= 1 {
        ConcatShort(vs);
      } else {
        ItemsLength(vs);
        assert |RedfishTail(a + Concat(vs), d)| < |RedfishTail(a + Items(vs), d)|;
      }
    } else {
      OpenWithOem(p, d);
      ConcatNotLonger(vs);
      assert |RedfishTail(e + Concat(vs), d)| < |RedfishTail(a + Items(vs), d)|;
    }
  }

  /** `Oem` is followed by `@odata.type` with no separator between them. */
  lemma RedfishOemNoSeparator(p: seq<Token>, d: RedfishEvent)
    requires d.oem.Some? && d.odataType != ""
    ensures var buf := RedfishOut(p, Some(d)).buf;
            exists k :: 0 <= k < |buf| - 1 && buf[k] == Raw(d.oem.value) && buf[k + 1] == Field("@odata.type")
  {
    var q := p + [ObjectStart];
    var h1 := RedfishHead(q, d);
    var h2 := h1 + StrField("@odata.type", d.odataType) + [More];
    var buf := RedfishOut(p, Some(d)).buf;
    RedfishTypeStays(p, d);
    var k := |h1| - 1;
    assert buf[k] == h2[k] && buf[k + 1] == h2[k + 1];
  }

  // ---------------------------------------------------------------------
  // The Data wrapper

  /** The error the wrapper reports: a nil wrapper reports the version
      error; otherwise the document's error, wrapped. */
  function DataError(data: Option<Data>): (e: Option<Error>)
    ensures data.Some? && e.Some? ==> e.value.WritingData?
  {
    if data.None? then Some(DataVersionNotSet)
    else
      var inner := RedfishError(data.value.data);
      if inner.Some? then Some(WritingData(inner.value)) else None
  }

  /** The wrapper encoder reports that error; a nil wrapper leaves just the
      opening of its object. */
  lemma DataErrors(p: seq<Token>, data: Option<Data>)
    ensures DataOut(p, data).err == DataError(data)
    ensures data.None? ==> DataOut(p, data).buf == p + [ObjectStart]
  {
    if data.Some? {
      var d := data.value;
      RedfishErrorOrder(p + [ObjectStart] + StrField("version", d.version) + [More] + [Field("data")], d.data);
    }
  }

  /** `version` is never checked: an empty one fails and succeeds exactly
      as any other. */
  lemma DataVersionUnchecked(p: seq<Token>, doc: Option<RedfishEvent>, v: string)
    ensures DataOut(p, Some(Data("", doc))).err == DataOut(p, Some(Data(v, doc))).err
  {
    DataErrors(p, Some(Data("", doc)));
    DataErrors(p, Some(Data(v, doc)));
  }

  /** The payloads the wrapper writes as well-formed JSON. */
  predicate PayloadSerializes(d: Data)
  {
    && d.data.Some?
    && RedfishComplete(d.data.value)
    && d.data.value.oem.None?
    && |d.data.value.events.value| <= 1
  }

  function DataValue(d: Data): Json
    requires d.data.Some? && d.data.value.events.Some?
  {
    JObject([Member("version", JString(d.version)), Member("data", RedfishValue(d.data.value))])
  }

  /** The wrapper's object around an already serialized document. */
  lemma WrapperObject(p: seq<Token>, v: string, x: Json)
    ensures p + [ObjectStart] + StrField("version", v) + [More] + [Field("data")] + Serialize(x) + [ObjectEnd]
            == p + Serialize(JObject([Member("version", JString(v)), Member("data", x)]))
  {
    var ms := [Member("version", JString(v)), Member("data", x)];
    assert ms[1..] == [ms[1]];
    MembersSingle(ms[1]);
    assert Members(ms) == [Field("version"), Str(v)] + [More] + Members([ms[1]]);
    ObjectWrap(p, ms);
  }

  /** Such a payload is written as its reference serialization. */
  lemma DataWellFormed(p: seq<Token>, d: Data)
    requires PayloadSerializes(d)
    ensures DataOut(p, Some(d)) == Written(p + Serialize(DataValue(d)), None)
  {
    var h := p + [ObjectStart] + StrField("version", d.version) + [More] + [Field("data")];
    RedfishWellFormed(h, d.data.value);
    WrapperObject(p, d.version, RedfishValue(d.data.value));
  }

  // ---------------------------------------------------------------------
  // The envelope

  /** The error the envelope reports: an unsupported content type first,
      then a missing payload, then whatever the payload reports. */
  function EnvelopeError(e: Event): Option<Error>
  {
    if e.dataContentType.Some? && e.dataContentType.value != ApplicationJSON then Some(UnsupportedContentType)
    else if e.data.None? then Some(DataNotSet)
    else DataError(e.data)
  }

  /** The envelope encoder reports exactly that error, and an envelope it
      accepts is a closed object. */
  lemma EnvelopeErrors(e: Event)
    ensures EventOut(e).err == EnvelopeError(e)
    ensures [ObjectStart] <= EventOut(e).buf
    ensures EventOut(e).err.None? ==> EventOut(e).buf[|EventOut(e).buf| - 1] == ObjectEnd
  {
    if !(e.dataContentType.Some? && e.dataContentType.value != ApplicationJSON) {
      var h1 := if e.dataContentType.Some?
                then Attributes([ObjectStart], e, e.dataContentType.value)
                else [ObjectStart];
      if e.data.Some? {
        var h := h1 + [More] + [Field("data")];
        DataErrors(h, e.data);
        DataOutExtends(h, e.data);
        assert [ObjectStart] <= h;
      }
    }
  }

  /** An unsupported content type: nothing but `{` is written. */
  lemma UnsupportedContentTypeStops(e: Event)
    requires e.dataContentType.Some? && e.dataContentType.value != ApplicationJSON
    ensures EventOut(e) == Written([ObjectStart], Some(UnsupportedContentType))
  {
  }

  /** A nil content type skips every attribute: the payload follows `{` and
      a separator directly, and it alone decides the outcome. */
  lemma NilContentType(e: Event)
    requires e.dataContentType.None? && e.data.Some?
    ensures [ObjectStart, More, Field("data")] <= EventOut(e).buf
    ensures EventOut(e).err == DataError(e.data)
  {
    var h := [ObjectStart] + [More] + [Field("data")];
    assert h == [ObjectStart, More, Field("data")];
    DataOutExtends(h, e.data);
    DataErrors(h, e.data);
  }

  function TimeMember(t: Option<string>): seq<Member>
  {
    if t.Some? then [Member("time", JString(t.value))] else []
  }

  /** The envelope attributes written when the content type is `ct`. */
  function AttributeMembers(e: Event, ct: string): seq<Member>
  {
    [Member("id", JString(e.id)), Member("type", JString(e.eventType))]
    + StrMember("dataContentType", ct)
    + TimeMember(e.time)
    + StrMember("dataSchema", e.dataSchema)
  }

  function EventValue(e: Event): Json
    requires e.dataContentType.Some? && e.data.Some? && e.data.value.data.Some?
    requires e.data.value.data.value.events.Some?
  {
    JObject(AttributeMembers(e, e.dataContentType.value) + [Member("data", DataValue(e.data.value))])
  }

  /** A further group of members written with a separator before it. */
  lemma PushAfter(q: seq<Token>, x: seq<Token>, a: seq<Member>, c: seq<Token>, m: seq<Member>)
    requires a != [] && x == q + Members(a)
    requires c == if m == [] then [] else [More] + Members(m)
    ensures x + c == q + Members(a + m)
  {
    if m == [] {
      assert a + m == a;
    } else {
      MembersAppend(a, m);
      Regroup(q, Members(a), [More], Members(m));
    }
  }

  lemma SepOptStringIsMembers(name: string, v: string)
    ensures SepOptString(name, v) == if StrMember(name, v) == [] then [] else [More] + Members(StrMember(name, v))
  {
    MembersSingle(Member(name, JString(v)));
  }

  lemma SepOptTimeIsMembers(t: Option<string>)
    ensures SepOptTime(t) == if TimeMember(t) == [] then [] else [More] + Members(TimeMember(t))
  {
    if t.Some? {
      MembersSingle(Member("time", JString(t.value)));
    }
  }

  /** The envelope attributes are the members `id`, `type`,
      `dataContentType`, then `time` and `dataSchema` when set. */
  lemma AttributesAreMembers(e: Event, ct: string)
    ensures Attributes([ObjectStart], e, ct) == [ObjectStart] + Members(AttributeMembers(e, ct))
  {
    var q := [ObjectStart];
    var a := [Member("id", JString(e.id)), Member("type", JString(e.eventType))];
    assert a[1..] == [a[1]];
    MembersSingle(a[1]);
    var x := q + StrField("id", e.id) + [More] + StrField("type", e.eventType);
    assert x == q + Members(a);
    SepOptStringIsMembers("dataContentType", ct);
    PushAfter(q, x, a, SepOptString("dataContentType", ct), StrMember("dataContentType", ct));
    x, a := x + SepOptString("dataContentType", ct), a + StrMember("dataContentType", ct);
    SepOptTimeIsMembers(e.time);
    PushAfter(q, x, a, SepOptTime(e.time), TimeMember(e.time));
    x, a := x + SepOptTime(e.time), a + TimeMember(e.time);
    SepOptStringIsMembers("dataSchema", e.dataSchema);
    PushAfter(q, x, a, SepOptString("dataSchema", e.dataSchema), StrMember("dataSchema", e.dataSchema));
  }

  /** The envelope's object around an already serialized payload. */
  lemma EnvelopeObject(e: Event, ct: string, v: Json)
    ensures Attributes([ObjectStart], e, ct) + [More] + [Field("data")] + Serialize(v) + [ObjectEnd]
            == Serialize(JObject(AttributeMembers(e, ct) + [Member("data", v)]))
  {
    var q: seq<Token> := [ObjectStart];
    var a := AttributeMembers(e, ct);
    var x := Attributes(q, e, ct);
    AttributesAreMembers(e, ct);
    var dm := Member("data", v);
    var c := [More] + [Field("data")] + Serialize(v);
    MembersSingle(dm);
    PushAfter(q, x, a, c, [dm]);
    Regroup(x, [More], [Field("data")], Serialize(v));
    assert x + [More] + [Field("data")] + Serialize(v) == q + Members(a + [dm]);
    ObjectWrap([], a + [dm]);
  }

  /** An envelope with the supported content type and a payload that
      serializes is written as the reference serialization of exactly its
      set attributes, in order, followed by `data`. */
  lemma EnvelopeWellFormed(e: Event)
    requires e.dataContentType == Some(ApplicationJSON) && e.data.Some? && PayloadSerializes(e.data.value)
    ensures EventOut(e) == Written(Serialize(EventValue(e)), None)
  {
    var x := Attributes([ObjectStart], e, ApplicationJSON);
    DataWellFormed(x + [More] + [Field("data")], e.data.value);
    EnvelopeObject(e, ApplicationJSON, DataValue(e.data.value));
  }
}
