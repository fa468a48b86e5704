// The header of a TCPROS connection (aioros/_node/_tcpros/_protocol.py): a size, then one
// sized key=value line per entry.
module Headers {
  import opened Outcomes
  import opened Bytes

  type Header = map<string, string>

  // The entries of a header, in some order.
  type Items = seq<(string, string)>

  ghost predicate Enumerates(items: Items, h: Header) {
    && (forall i :: 0 <= i < |items| ==> items[i].0 in h && h[items[i].0] == items[i].1)
    && (forall i, j :: 0 <= i < j < |items| ==> items[i].0 != items[j].0)
    && (forall k :: k in h ==> exists i :: 0 <= i < |items| && items[i].0 == k)
  }

  // ----- encoding -----

  function Line(item: (string, string)): string {
    item.0 + "=" + item.1
  }

  function Framed(b: seq<Byte>): (r: seq<Byte>)
    requires |b| < LIMIT
    ensures |r| == 4 + |b|
  {
    U32(|b|) + b
  }

  predicate LinesFit(items: Items) {
    forall i :: 0 <= i < |items| ==> |Encode(Line(items[i]))| < LIMIT
  }

  function Lines(items: Items): seq<Byte>
    requires LinesFit(items)
    decreases |items|
  {
    if items == [] then [] else Lines(items[..|items| - 1]) + Framed(Encode(Line(items[|items| - 1])))
  }

  predicate Fits(items: Items) {
    LinesFit(items) && |Lines(items)| < LIMIT
  }

  // Python's order on strings.
  predicate Less(a: string, b: string) {
    b != "" && (a == "" || a[0] < b[0] || (a[0] == b[0] && Less(a[1..], b[1..])))
  }

  // Keys are distinct, so that values do not matter for the order.
  ghost predicate Ordered(items: Items) {
    forall i, j :: 0 <= i < j < |items| ==> Less(items[i].0, items[j].0)
  }

  lemma {:induction false} LessStrict(a: string, b: string)
    ensures a == b ==> !Less(a, b)
    ensures Less(a, b) ==> !Less(b, a)
    ensures a != b ==> Less(a, b) || Less(b, a)
  {
    if a != "" && b != "" {
      LessStrict(a[1..], b[1..]);
      assert a == [a[0]] + a[1..] && b == [b[0]] + b[1..];
    }
  }

  lemma {:induction false} LessThrough(a: string, b: string, c: string)
    requires Less(a, b) && Less(b, c)
    ensures Less(a, c)
  {
    if a != "" {
      if a[0] == b[0] == c[0] {
        LessThrough(a[1..], b[1..], c[1..]);
      }
    }
  }

  function Insert(x: (string, string), items: Items): Items {
    if items == [] || Less(x.0, items[0].0) then [x] + items else [items[0]] + Insert(x, items[1..])
  }

  lemma {:induction false} InsertAmong(x: (string, string), items: Items)
    requires Ordered(items) && forall i :: 0 <= i < |items| ==> items[i].0 != x.0
    ensures Ordered(Insert(x, items))
    ensures forall y :: y in Insert(x, items) <==> y in items || y == x
  {
    if items == [] {
    } else if Less(x.0, items[0].0) {
      forall j | 0 <= j < |items|
        ensures Less(x.0, items[j].0)
      {
        if j > 0 {
          LessThrough(x.0, items[0].0, items[j].0);
        }
      }
    } else {
      var rest := Insert(x, items[1..]);
      InsertAmong(x, items[1..]);
      LessStrict(x.0, items[0].0);
      forall j | 0 <= j < |rest|
        ensures Less(items[0].0, rest[j].0)
      {
        assert rest[j] in rest;
      }
    }
  }

  ghost predicate Holds(items: Items, h: Header) {
    forall y :: y in items <==> y.0 in h && h[y.0] == y.1
  }

  lemma OrderedEnumerates(items: Items, h: Header)
    requires Ordered(items) && Holds(items, h)
    ensures Enumerates(items, h)
  {
    forall i, j | 0 <= i < j < |items|
      ensures items[i].0 != items[j].0
    {
      LessStrict(items[i].0, items[j].0);
    }
    forall i | 0 <= i < |items|
      ensures items[i].0 in h && h[items[i].0] == items[i].1
    {
      assert items[i] in items;
    }
    forall k | k in h
      ensures exists i :: 0 <= i < |items| && items[i].0 == k
    {
      assert (k, h[k]) in items;
    }
  }

  // A header has one ordered enumeration, hence one encoding.
  lemma {:induction false} OneOrder(h: Header, a: Items, b: Items)
    requires Ordered(a) && Ordered(b) && Holds(a, h) && Holds(b, h)
    ensures a == b
    decreases |a|
  {
    SameItems(h, a, b);
    if a != [] && b != [] {
      var x := a[0];
      SameFirst(a, b, h);
      TailHolds(a, h);
      TailHolds(b, h);
      OneOrder(h - {x.0}, a[1..], b[1..]);
      assert a == [x] + a[1..] && b == [x] + b[1..];
    }
  }

  lemma SameItems(h: Header, a: Items, b: Items)
    requires Holds(a, h) && Holds(b, h)
    ensures forall y :: y in a <==> y in b
    ensures a == [] <==> b == []
  {
    if a != [] {
      assert a[0] in a;
    }
    if b != [] {
      assert b[0] in b;
    }
  }

  lemma SameFirst(a: Items, b: Items, h: Header)
    requires Ordered(a) && Ordered(b) && Holds(a, h) && Holds(b, h) && a != [] && b != []
    ensures a[0] == b[0]
  {
    var x, y := a[0], b[0];
    assert x in a && y in b;
    var i :| 0 <= i < |b| && b[i] == x;
    var j :| 0 <= j < |a| && a[j] == y;
    LessStrict(x.0, y.0);
  }

  lemma TailHolds(a: Items, h: Header)
    requires Ordered(a) && Holds(a, h) && a != []
    ensures Ordered(a[1..]) && Holds(a[1..], h - {a[0].0})
  {
    OrderedEnumerates(a, h);
    forall y
      ensures y in a[1..] <==> y in a && y.0 != a[0].0
    {
      if y in a[1..] {
        var i :| 0 <= i < |a[1..]| && a[1..][i] == y;
        assert a[i + 1] == y;
      }
    }
  }

  // sorted(header.items())
  method SortedItems(header: Header) returns (items: Items)
    ensures Ordered(items) && Holds(items, header) && Enumerates(items, header)
  {
    hide Less, Insert;
    items := [];
    var todo := header.Keys;
    while todo != {}
      invariant todo <= header.Keys && Ordered(items)
      invariant forall y :: y in items <==> y.0 in header.Keys - todo && header[y.0] == y.1
      decreases |todo|
    {
      var key :| key in todo;
      forall i | 0 <= i < |items|
        ensures items[i].0 != key
      {
        assert items[i] in items;
      }
      InsertAmong((key, header[key]), items);
      items := Insert((key, header[key]), items);
      todo := todo - {key};
    }
    OrderedEnumerates(items, header);
  }

  // Sizes of four bytes are all that can go wrong.
  method EncodeHeader(header: Header) returns (r: Result<seq<Byte>>, ghost sorted: Items)
    ensures Ordered(sorted) && Holds(sorted, header) && Enumerates(sorted, header)
    ensures r == if Fits(sorted) then Ok(Framed(Lines(sorted))) else Err(StructError)
    ensures r.Ok? ==> (DecodeLines(r.value[4..], map[]) == Ok(header) <==> forall k :: k in header ==> Legible(k))
  {
    hide Ordered, Holds, Enumerates, Fits, Lines, Legible, DecodeLines;
    var items := SortedItems(header);
    sorted := items;
    r := EncodeItems(items);
    if r.Ok? {
      FitsLines(items);
      HeaderRoundTrip(header, items);
    }
  }

  lemma FitsLines(items: Items)
    requires Fits(items)
    ensures LinesFit(items) && |Lines(items)| < LIMIT && Framed(Lines(items))[4..] == Lines(items)
  {
  }

  // The loop of encode_header.
  method EncodeItems(items: Items) returns (r: Result<seq<Byte>>)
    ensures r == if Fits(items) then Ok(Framed(Lines(items))) else Err(StructError)
  {
    hide Encode, U32;
    var data: seq<Byte> := [];
    var i := 0;
    while i < |items|
      invariant 0 <= i <= |items|
      invariant LinesFit(items[..i]) && data == Lines(items[..i])
    {
      var (key, value) := items[i];
      var keyValue := Encode(key) + Encode("=") + Encode(value);
      EncodeConcat(key, "=");
      EncodeConcat(key + "=", value);
      assert keyValue == Encode(Line(items[i]));
      if |keyValue| >= LIMIT {
        return Err(StructError);
      }
      assert items[..i + 1][..i] == items[..i];
      data := data + U32(|keyValue|) + keyValue;
      i := i + 1;
    }
    assert items[..i] == items;
    r := if |data| < LIMIT then Ok(Framed(data)) else Err(StructError);
  }

  // ----- decoding -----

  // What str.strip takes off.
  predicate Space(c: char) {
    var n := c as int;
    || 0x09 <= n <= 0x0D || 0x1C <= n <= 0x20 || n == 0x85 || n == 0xA0 || n == 0x1680
    || 0x2000 <= n <= 0x200A || n == 0x2028 || n == 0x2029 || n == 0x202F || n == 0x205F || n == 0x3000
  }

  function TrimStart(s: string): (t: string)
    ensures |t| <= |s| && (t != "" ==> !Space(t[0])) && (s != "" && !Space(s[0]) ==> t == s)
    ensures t == s[|s| - |t|..]
  {
    if s != "" && Space(s[0]) then TrimStart(s[1..]) else s
  }

  function TrimEnd(s: string): (t: string)
    ensures |t| <= |s| && (t != "" ==> !Space(t[|t| - 1])) && (s != "" && !Space(s[|s| - 1]) ==> t == s)
    ensures t == s[..|t|]
    decreases |s|
  {
    if s != "" && Space(s[|s| - 1]) then TrimEnd(s[..|s| - 1]) else s
  }

  function Strip(s: string): string {
    TrimEnd(TrimStart(s))
  }

  // line.find("=", i)
  function FindEquals(line: string, i: nat): (j: Option<nat>)
    ensures j.Some? ==> i <= j.value < |line| && line[j.value] == '='
    ensures forall k :: i <= k < (if j.Some? then j.value else |line|) ==> line[k] != '='
    decreases |line| - i
  {
    if i >= |line| then None
    else if line[i] == '=' then Some(i)
    else FindEquals(line, i + 1)
  }

  // A line without '=' after its first character is skipped.
  function Entered(h: Header, line: string): Header {
    var j := FindEquals(line, 1);
    if j == None then h else h[Strip(line[..j.value]) := line[j.value + 1..]]
  }

  // The loop of decode_header, from what is left of the data. A last line may be shorter
  // than announced, but not its size.
  function DecodeLines(data: seq<Byte>, h: Header): Result<Header>
    decreases |data|
  {
    if data == [] then Ok(h)
    else if |data| < 4 then Err(StructError)
    else
      var end := 4 + FromU32(data[..4]);
      var line := Decode(data[4..if end < |data| then end else |data|]);
      if line == None then Err(UnicodeError)
      else DecodeLines(if end < |data| then data[end..] else [], Entered(h, line.value))
  }

  lemma DecodeNext(left: seq<Byte>, h: Header, end: nat)
    requires |left| >= 4 && end == 4 + FromU32(left[..4])
    ensures var line := Decode(left[4..if end < |left| then end else |left|]);
      DecodeLines(left, h) ==
        if line == None then Err(UnicodeError)
        else DecodeLines(if end < |left| then left[end..] else [], Entered(h, line.value))
  {
    hide Decode, Entered, FromU32;
  }

  lemma DecodeShort(left: seq<Byte>, h: Header)
    requires 0 < |left| < 4
    ensures DecodeLines(left, h) == Err(StructError)
  {
  }

  method DecodeHeader(data: seq<Byte>) returns (r: Result<Header>)
    ensures r == DecodeLines(data, map[])
  {
    hide Decode, FindEquals, Strip, FromU32, DecodeLines;
    var headerDict: Header := map[];
    var start := 0;
    assert data[0..] == data;
    while start < |data|
      invariant 0 <= start
      invariant DecodeLines(data, map[]) == DecodeLines(if start < |data| then data[start..] else [], headerDict)
      decreases |data| - start
    {
      ghost var left, begin := data[start..], start;
      if start + 4 > |data| {
        DecodeShort(left, headerDict);
        return Err(StructError);
      }
      var fieldSize := FromU32(data[start..start + 4]);
      assert left[..4] == data[start..start + 4];
      DecodeNext(left, headerDict, 4 + fieldSize);
      start := start + fieldSize + 4;
      var stop := if start < |data| then start else |data|;
      RestSlice(data, begin, 4, stop - begin);
      assert left[4..stop - begin] == left[4..if 4 + fieldSize < |left| then 4 + fieldSize else |left|];
      var line := Decode(data[start - fieldSize..stop]);
      if line == None {
        return Err(UnicodeError);
      }
      assert start < |data| ==> data[start..] == left[4 + fieldSize..];
      var idx := FindEquals(line.value, 1);
      if idx.Some? {
        headerDict := headerDict[Strip(line.value[..idx.value]) := line.value[idx.value + 1..]];
      }
    }
    DecodeDone(headerDict);
    r := Ok(headerDict);
  }

  lemma RestSlice(data: seq<Byte>, begin: nat, i: nat, j: nat)
    requires i <= j && begin + j <= |data|
    ensures data[begin..][i..j] == data[begin + i..begin + j]
  {
  }

  lemma DecodeDone(h: Header)
    ensures DecodeLines([], h) == Ok(h)
  {
  }

  // ----- what is read -----

  predicate Spaces(s: string) {
    forall i :: 0 <= i < |s| ==> Space(s[i])
  }

  lemma {:induction false} StartStripped(a: string, s: string)
    requires Spaces(a) && (s != "" ==> !Space(s[0]))
    ensures TrimStart(a + s) == s
    decreases |a|
  {
    if a == "" {
      assert a + s == s;
    } else {
      assert (a + s)[1..] == a[1..] + s;
      StartStripped(a[1..], s);
    }
  }

  lemma {:induction false} EndStripped(s: string, b: string)
    requires Spaces(b) && (s != "" ==> !Space(s[|s| - 1]))
    ensures TrimEnd(s + b) == s
    decreases |b|
  {
    if b == "" {
      assert s + b == s;
    } else {
      assert (s + b)[..|s + b| - 1] == s + b[..|b| - 1];
      EndStripped(s, b[..|b| - 1]);
    }
  }

  // White space goes at both ends, and nothing else.
  lemma StripExact(a: string, s: string, b: string)
    requires Spaces(a) && Spaces(b) && (s != "" ==> !Space(s[0]) && !Space(s[|s| - 1]))
    ensures Strip(a + s + b) == s
  {
    if s == "" {
      assert a + s + b == (a + b) + "";
      StartStripped(a + b, "");
    } else {
      assert a + s + b == a + (s + b);
      StartStripped(a, s + b);
      EndStripped(s, b);
    }
  }

  lemma SpaceExamples()
    ensures Spaces(" \t\n\r") && !Space('a') && !Space('=') && !Space('0')
  {
  }

  // A line is divided at its first '=' after the first character.
  lemma EnteredExact(h: Header, key: string, value: string)
    requires key != "" && forall i :: 1 <= i < |key| ==> key[i] != '='
    ensures Entered(h, key + "=" + value) == h[Strip(key) := value]
  {
    hide Strip;
    var line := key + "=" + value;
    assert line[|key|] == '=' && line[..|key|] == key && line[|key| + 1..] == value;
    assert forall i :: 1 <= i < |key| ==> line[i] == key[i];
    assert FindEquals(line, 1) == Some(|key|);
  }

  // Without one it is skipped.
  lemma EnteredNothing(h: Header, line: string)
    requires forall i :: 1 <= i < |line| ==> line[i] != '='
    ensures Entered(h, line) == h
  {
  }

  // A last line may be shorter than announced; what there is of it counts.
  lemma ShortLine(n: nat, b: seq<Byte>, h: Header)
    requires |b| <= n < LIMIT
    ensures DecodeLines(U32(n) + b, h) ==
            match Decode(b) case None => Err(UnicodeError) case Some(line) => Ok(Entered(h, line))
  {
    hide Decode, Entered, U32, FromU32;
    var data := U32(n) + b;
    SizeRoundTrip(n);
    assert data[..4] == U32(n) && data[4..] == b;
    DecodeNext(data, h, 4 + n);
    assert data[4..|data|] == b;
    if Decode(b).Some? {
      DecodeDone(Entered(h, Decode(b).value));
    }
  }

  lemma LineBytes(key: string, value: string)
    ensures Encode(Line((key, value))) == Encode(key) + [0x3D] + Encode(value)
  {
    EncodeConcat(key, "=");
    EncodeConcat(key + "=", value);
    assert "="[1..] == "" && EncodeChar('=') == [0x3D];
    assert Encode("=") == [0x3D];
  }

  // {"a": "b"} on the wire.
  lemma HeaderExample()
    ensures Fits([("a", "b")])
    ensures Framed(Lines([("a", "b")])) == [7, 0, 0, 0, 3, 0, 0, 0, 97, 61, 98]
  {
    hide U32, Encode, EncodeChar;
    var items := [("a", "b")];
    LineBytes("a", "b");
    OneChar('a');
    OneChar('b');
    SmallSize(3);
    SmallSize(7);
    var line := Encode(Line(items[0]));
    assert line == [97, 61, 98];
    assert items[..0] == [] && Lines(items[..0]) == [];
    assert Lines(items) == [3, 0, 0, 0] + [97, 61, 98];
  }

  lemma OneChar(c: char)
    requires c as int < 0x80
    ensures Encode([c]) == [c as int]
  {
    assert [c][1..] == [];
  }

  // ----- round trip -----

  function EnterAll(h: Header, items: Items): Header
    decreases |items|
  {
    if items == [] then h else Entered(EnterAll(h, items[..|items| - 1]), Line(items[|items| - 1]))
  }

  lemma OneLine(line: string, rest: seq<Byte>, h: Header)
    requires |Encode(line)| < LIMIT
    ensures DecodeLines(Framed(Encode(line)) + rest, h) == DecodeLines(rest, Entered(h, line))
  {
    var b := Encode(line);
    var data := Framed(b) + rest;
    SizeRoundTrip(|b|);
    assert data[..4] == U32(|b|);
    assert data[4..4 + |b|] == b;
    TextRoundTrip(line);
    if rest != [] {
      assert data[4 + |b|..] == rest;
    } else {
      assert data[4..] == b;
    }
  }

  lemma {:induction false} LinesDecode(items: Items, rest: seq<Byte>)
    requires LinesFit(items)
    ensures DecodeLines(Lines(items) + rest, map[]) == DecodeLines(rest, EnterAll(map[], items))
    decreases |items|
  {
    hide DecodeLines, Entered, Framed, Encode;
    if items == [] {
      assert Lines(items) + rest == rest;
    } else {
      var n := |items| - 1;
      var last := Framed(Encode(Line(items[n])));
      LinesDecode(items[..n], last + rest);
      assert Lines(items) + rest == Lines(items[..n]) + (last + rest);
      OneLine(Line(items[n]), rest, EnterAll(map[], items[..n]));
    }
  }

  // Keys that survive: not empty, not padded, and no '=' after the first character.
  predicate Legible(key: string) {
    && key != "" && !Space(key[0]) && !Space(key[|key| - 1])
    && forall i :: 1 <= i < |key| ==> key[i] != '='
  }

  function Name(item: (string, string)): Option<string> {
    var j := FindEquals(Line(item), 1);
    if j == None then None else Some(Strip(Line(item)[..j.value]))
  }

  lemma LegibleName(item: (string, string))
    requires Legible(item.0)
    ensures FindEquals(Line(item), 1) == Some(|item.0|)
    ensures Name(item) == Some(item.0) && Line(item)[|item.0| + 1..] == item.1
  {
    var (key, value) := item;
    assert Line(item)[|key|] == '=';
    assert Line(item)[..|key|] == key;
  }

  // Other keys come out shorter ...
  lemma IllegibleName(item: (string, string))
    requires !Legible(item.0) && item.0 != ""
    ensures Name(item).Some? && |Name(item).value| < |item.0|
  {
    var key := item.0;
    assert Line(item)[|key|] == '=';
    var j := FindEquals(Line(item), 1).value;
    if j == |key| {
      assert Line(item)[..j] == key;
      assert Space(key[0]) || Space(key[|key| - 1]);
    }
  }

  // ... and the empty one, if at all, under a name that survives.
  lemma EmptyName(item: (string, string))
    requires item.0 == "" && Name(item).Some?
    ensures Legible(Name(item).value)
  {
    hide Strip, FindEquals, Legible;
    var line := Line(item);
    var j := FindEquals(line, 1).value;
    assert line[0] == '=';
    assert forall i :: 1 <= i < j ==> line[..j][i] == line[i];
    StrippedLegible(line[..j]);
  }

  lemma StrippedLegible(name: string)
    requires name != "" && name[0] == '=' && forall i :: 1 <= i < |name| ==> name[i] != '='
    ensures Legible(Strip(name))
  {
    assert !Space('=');
    var r := EndOnly(name);
    assert r[0] == name[0];
    assert forall i :: 1 <= i < |r| ==> r[i] == name[i];
  }

  // Without white space in front, something is left, and only the end is taken off.
  lemma EndOnly(s: string) returns (r: string)
    requires s != "" && !Space(s[0])
    ensures r == Strip(s) && r != "" && |r| <= |s| && r == s[..|r|] && !Space(r[|r| - 1])
  {
    NotAllSpace(s);
    assert TrimStart(s) == s;
    r := TrimEnd(s);
  }

  lemma {:induction false} NotAllSpace(s: string)
    requires s != "" && !Space(s[0])
    ensures TrimEnd(s) != ""
    decreases |s|
  {
    if |s| > 1 {
      NotAllSpace(s[..|s| - 1]);
    }
  }

  lemma {:induction false} EnteredKeys(items: Items, x: string) returns (i: nat)
    requires x in EnterAll(map[], items)
    ensures i < |items| && Name(items[i]) == Some(x)
    decreases |items|
  {
    var n := |items| - 1;
    if Name(items[n]) == Some(x) {
      i := n;
    } else {
      i := EnteredKeys(items[..n], x);
    }
  }

  lemma LegibleLine(h: Header, item: (string, string))
    requires Legible(item.0)
    ensures Entered(h, Line(item)) == h[item.0 := item.1]
  {
    hide Legible, FindEquals, Strip;
    LegibleName(item);
  }

  lemma EnterMore(items: Items, n: nat)
    requires n < |items|
    ensures EnterAll(map[], items[..n + 1]) == Entered(EnterAll(map[], items[..n]), Line(items[n]))
  {
    hide Entered;
    assert items[..n + 1][..n] == items[..n];
  }

  // Legible keys are entered as they are, whatever the order.
  lemma {:induction false} LegibleEntered(items: Items, n: nat)
    requires n <= |items| && (forall i, j :: 0 <= i < j < |items| ==> items[i].0 != items[j].0)
    requires forall i :: 0 <= i < |items| ==> Legible(items[i].0)
    ensures var d := EnterAll(map[], items[..n]);
      forall i :: 0 <= i < n ==> items[i].0 in d && d[items[i].0] == items[i].1
    decreases n
  {
    hide Legible, Entered, EnterAll, Line;
    if n > 0 {
      LegibleEntered(items, n - 1);
      EnterMore(items, n - 1);
      LegibleLine(EnterAll(map[], items[..n - 1]), items[n - 1]);
    }
  }

  lemma {:induction false} LongestIllegible(items: Items, n: nat) returns (m: nat)
    requires n <= |items| && exists i :: 0 <= i < n && !Legible(items[i].0)
    ensures m < n && !Legible(items[m].0)
    ensures forall i :: 0 <= i < n && !Legible(items[i].0) ==> |items[i].0| <= |items[m].0|
    decreases n
  {
    if i :| 0 <= i < n - 1 && !Legible(items[i].0) {
      m := LongestIllegible(items, n - 1);
      if !Legible(items[n - 1].0) && |items[n - 1].0| > |items[m].0| {
        m := n - 1;
      }
    } else {
      m := n - 1;
    }
  }

  // The longest key that does not survive is the name of no line.
  lemma IllegibleLost(items: Items, m: nat)
    requires m < |items| && !Legible(items[m].0)
    requires forall i :: 0 <= i < |items| && !Legible(items[i].0) ==> |items[i].0| <= |items[m].0|
    ensures items[m].0 !in EnterAll(map[], items)
  {
    if items[m].0 in EnterAll(map[], items) {
      var i := EnteredKeys(items, items[m].0);
      if Legible(items[i].0) {
        LegibleName(items[i]);
      } else if items[i].0 == "" {
        EmptyName(items[i]);
      } else {
        IllegibleName(items[i]);
      }
    }
  }

  // A header survives encoding and decoding if and only if all its keys do, in whatever
  // order its entries are written.
  lemma HeaderRoundTrip(h: Header, items: Items)
    requires Enumerates(items, h) && LinesFit(items)
    ensures DecodeLines(Lines(items), map[]) == Ok(h) <==> forall k :: k in h ==> Legible(k)
  {
    LinesDecode(items, []);
    assert Lines(items) + [] == Lines(items);
    var d := EnterAll(map[], items);
    if forall i :: 0 <= i < |items| ==> Legible(items[i].0) {
      AllLegible(h, items);
    } else {
      var m := LongestIllegible(items, |items|);
      IllegibleLost(items, m);
    }
  }

  lemma AllLegible(h: Header, items: Items)
    requires Enumerates(items, h) && forall i :: 0 <= i < |items| ==> Legible(items[i].0)
    ensures EnterAll(map[], items) == h
  {
    hide Legible, EnterAll, Name;
    var d := EnterAll(map[], items);
    LegibleEntered(items, |items|);
    assert items[..|items|] == items;
    forall x | x in d
      ensures x in h
    {
      var i := EnteredKeys(items, x);
      LegibleName(items[i]);
    }
  }
}
