/** The streaming JSON writer the encoders append to (jsoniter's Stream),
    seen as a sequence of output chunks, together with a reference
    serializer for JSON values that the emitted chunks are compared with.

    A chunk is written as one call of the writer would write it:
      ObjectStart `{`, ObjectEnd `}`, ArrayStart `[`, ArrayEnd `]`, More `,`,
      Field(n) the quoted name n followed by `:`, Str(s) the quoted string s,
      Int(i) the decimal digits of i, Raw(b) the bytes b copied verbatim.
    How a string is escaped and how an integer is spelt is the writer's
    business and stays uninterpreted. */
module JsonStream {

  newtype byte = x: int | 0 <= x < 256

  datatype Token =
    | ObjectStart
    | ObjectEnd
    | ArrayStart
    | ArrayEnd
    | More
    | Field(name: string)
    | Str(s: string)
    | Int(i: int)
    | Raw(bytes: seq<byte>)

  /** The shared output stream: every write appends chunks to `buf`. */
  class Stream {
    var buf: seq<Token>

    constructor ()
      ensures buf == []
    {
      buf := [];
    }

    method WriteObjectStart()
      modifies this
      ensures buf == old(buf) + [ObjectStart]
    {
      buf := buf + [ObjectStart];
    }

    method WriteObjectEnd()
      modifies this
      ensures buf == old(buf) + [ObjectEnd]
    {
      buf := buf + [ObjectEnd];
    }

    method WriteArrayStart()
      modifies this
      ensures buf == old(buf) + [ArrayStart]
    {
      buf := buf + [ArrayStart];
    }

    method WriteArrayEnd()
      modifies this
      ensures buf == old(buf) + [ArrayEnd]
    {
      buf := buf + [ArrayEnd];
    }

    method WriteMore()
      modifies this
      ensures buf == old(buf) + [More]
    {
      buf := buf + [More];
    }

    method WriteObjectField(name: string)
      modifies this
      ensures buf == old(buf) + [Field(name)]
    {
      buf := buf + [Field(name)];
    }

    method WriteString(s: string)
      modifies this
      ensures buf == old(buf) + [Str(s)]
    {
      buf := buf + [Str(s)];
    }

    method WriteInt(i: int)
      modifies this
      ensures buf == old(buf) + [Int(i)]
    {
      buf := buf + [Int(i)];
    }

    /** `Write(p []byte)`: the bytes go out unexamined. */
    method WriteRaw(bytes: seq<byte>)
      modifies this
      ensures buf == old(buf) + [Raw(bytes)]
    {
      buf := buf + [Raw(bytes)];
    }
  }

  /** A JSON value as a generic encoder would see it. Raw blobs stand for
      pre-serialized JSON that is copied as-is. */
  datatype Json =
    | JObject(members: seq<Member>)
    | JArray(items: seq<Json>)
    | JString(s: string)
    | JInt(i: int)
    | JRaw(bytes: seq<byte>)

  datatype Member = Member(name: string, value: Json)

  /** Reference serialization: members and items separated by exactly one
      comma, nothing before the first or after the last. */
  function Serialize(v: Json): seq<Token>
    decreases v
  {
    match v
    case JObject(ms) => [ObjectStart] + Members(ms) + [ObjectEnd]
    case JArray(xs) => [ArrayStart] + Items(xs) + [ArrayEnd]
    case JString(s) => [Str(s)]
    case JInt(i) => [Int(i)]
    case JRaw(b) => [Raw(b)]
  }

  function Members(ms: seq<Member>): seq<Token>
    decreases ms
  {
    if ms == [] then []
    else [Field(ms[0].name)] + Serialize(ms[0].value)
         + (if |ms| == 1 then [] else [More] + Members(ms[1..]))
  }

  function Items(xs: seq<Json>): seq<Token>
    decreases xs
  {
    if xs == [] then []
    else Serialize(xs[0]) + (if |xs| == 1 then [] else [More] + Items(xs[1..]))
  }

  /** Two non-empty member lists serialize to their serializations joined by
      one comma. */
  lemma {:induction false} MembersAppend(a: seq<Member>, b: seq<Member>)
    requires a != [] && b != []
    ensures Members(a + b) == Members(a) + [More] + Members(b)
    decreases |a|
  {
    var ab := a + b;
    assert ab[0] == a[0];
    if |a| == 1 {
      assert ab[1..] == b;
    } else {
      assert ab[1..] == a[1..] + b;
      MembersAppend(a[1..], b);
    }
  }

  /** Appending one item to a non-empty array adds one comma and the item. */
  lemma {:induction false} ItemsSnoc(xs: seq<Json>, x: Json)
    requires xs != []
    ensures Items(xs + [x]) == Items(xs) + [More] + Serialize(x)
    decreases |xs|
  {
    var ys := xs + [x];
    assert ys[0] == xs[0];
    if |xs| == 1 {
      assert ys[1..] == [x];
    } else {
      assert ys[1..] == xs[1..] + [x];
      ItemsSnoc(xs[1..], x);
    }
  }

  /** Members followed by a separator, as a writer emits them before a
      further member; nothing at all for no members. */
  function Sep(ms: seq<Member>): seq<Token>
  {
    if ms == [] then [] else Members(ms) + [More]
  }

  /** Writing two groups of members, each followed by its separator, is
      writing their concatenation followed by one separator. */
  lemma SepStep(q: seq<Token>, a: seq<Member>, b: seq<Member>)
    ensures q + Sep(a) + Sep(b) == q + Sep(a + b)
  {
    if a == [] {
      assert a + b == b;
    } else if b == [] {
      assert a + b == a;
    } else {
      MembersAppend(a, b);
      Regroup(q, Members(a) + [More], Members(b), [More]);
    }
  }

  /** Regrouping a concatenation of four parts. */
  lemma Regroup(q: seq<Token>, x: seq<Token>, y: seq<Token>, z: seq<Token>)
    ensures q + x + (y + z) == q + (x + y + z)
  {
  }

  /** Members followed by a separator, then a last non-empty group, are the
      serialization of all of them. */
  lemma SepClose(q: seq<Token>, a: seq<Member>, b: seq<Member>)
    requires b != []
    ensures q + Sep(a) + Members(b) == q + Members(a + b)
  {
    if a == [] {
      assert a + b == b;
    } else {
      MembersAppend(a, b);
    }
  }

  /** Opening an object, its members and closing it is its serialization. */
  lemma ObjectWrap(p: seq<Token>, ms: seq<Member>)
    ensures p + [ObjectStart] + Members(ms) + [ObjectEnd] == p + Serialize(JObject(ms))
  {
  }

  /** A single member is its name followed by its value. */
  lemma MembersSingle(m: Member)
    ensures Members([m]) == [Field(m.name)] + Serialize(m.value)
  {
    assert [m][0] == m;
  }

  /** Values written one after another with no separator. */
  function Concat(vs: seq<Json>): seq<Token>
    decreases |vs|
  {
    if vs == [] then [] else Serialize(vs[0]) + Concat(vs[1..])
  }

  /** An array body has one separator fewer than it has items. */
  lemma {:induction false} ItemsLength(vs: seq<Json>)
    requires vs != []
    ensures |Items(vs)| == |Concat(vs)| + |vs| - 1
    decreases |vs|
  {
    if |vs| > 1 {
      ItemsLength(vs[1..]);
    }
  }
}
