/** Records of RFC 4251 fields read one after another, as the certificate,
user-authentication and key-exchange code does with `Reader`. */
module Records {
  import opened Wire

  datatype Shape = Text(bound: nat) | Number32 | Number64 | Flag | Octet

  datatype Datum = Str(text: Wire.Str) | Num(n: nat) | Bit(b: bool)

  function ReadOne(shape: Shape, input: Bytes): (r: Result<Got<Datum>>)
    ensures r.Ok? ==> |r.value.rest| < |input|
    ensures r.Ok? ==> (shape.Text? ==> r.value.value.Str?) && (shape.Flag? ==> r.value.value.Bit?)
    ensures r.Ok? ==> (shape.Number32? || shape.Number64? || shape.Octet? ==> r.value.value.Num?)
  {
    match shape
    case Text(bound) => var g :- GetString(input, bound); Ok(Got(Str(g.value), g.rest))
    case Number32 => var g :- GetU32(input); Ok(Got(Num(g.value), g.rest))
    case Number64 => var g :- GetU64(input); Ok(Got(Num(g.value), g.rest))
    case Flag => var g :- GetBoolean(input); Ok(Got(Bit(g.value), g.rest))
    case Octet => var g :- GetByte(input); Ok(Got(Num(g.value), g.rest))
  }

  /** The value of each field, in order. */
  predicate Matches(shapes: seq<Shape>, data: seq<Datum>) {
    |data| == |shapes| && forall i :: 0 <= i < |shapes| ==>
      if shapes[i].Text? then data[i].Str? else if shapes[i].Flag? then data[i].Bit? else data[i].Num?
  }

  function ReadAll(shapes: seq<Shape>, input: Bytes): (r: Result<Got<seq<Datum>>>)
    ensures r.Ok? ==> Matches(shapes, r.value.value) && |r.value.rest| <= |input|
  {
    if shapes == [] then Ok(Got([], input))
    else
      var head :- ReadOne(shapes[0], input);
      var tail :- ReadAll(shapes[1..], head.rest);
      Ok(Got([head.value] + tail.value, tail.rest))
  }

  /** The bytes a read consumed. */
  function Consumed(shapes: seq<Shape>, input: Bytes): Bytes
    requires ReadAll(shapes, input).Ok?
  {
    input[..|input| - |ReadAll(shapes, input).value.rest|]
  }

  // ---- reading depends only on the bytes consumed ----

  lemma ReadOneSuffix(shape: Shape, input: Bytes)
    requires ReadOne(shape, input).Ok?
    ensures var rest := ReadOne(shape, input).value.rest; rest == input[|input| - |rest|..]
  {
    if shape.Text? {
      var g := GetU32(input).value;
      assert GetString(input, shape.bound).value.rest == g.rest[g.value..];
    }
  }

  lemma {:induction false} ReadSuffix(shapes: seq<Shape>, input: Bytes)
    requires ReadAll(shapes, input).Ok?
    ensures var rest := ReadAll(shapes, input).value.rest;
            rest == input[|input| - |rest|..] && input == Consumed(shapes, input) + rest
  {
    hide ReadOne;
    if shapes != [] {
      ReadOneSuffix(shapes[0], input);
      var mid := ReadOne(shapes[0], input).value.rest;
      ReadSuffix(shapes[1..], mid);
      var rest := ReadAll(shapes, input).value.rest;
      SuffixOfSuffix(input, mid, rest);
    }
  }

  lemma SuffixOfSuffix(input: Bytes, mid: Bytes, rest: Bytes)
    requires |rest| <= |mid| <= |input| && mid == input[|input| - |mid|..] && rest == mid[|mid| - |rest|..]
    ensures rest == input[|input| - |rest|..] && input == input[..|input| - |rest|] + rest
  {
  }

  lemma ReadOneExtend(shape: Shape, input: Bytes, tail: Bytes)
    requires ReadOne(shape, input).Ok?
    ensures var g := ReadOne(shape, input).value; ReadOne(shape, input + tail) == Ok(Got(g.value, g.rest + tail))
  {
    match shape
    case Text(bound) => GetStringExtend(input, tail, bound);
    case Number32 => assert (input + tail)[..4] == input[..4] && (input + tail)[4..] == input[4..] + tail;
    case Number64 => assert (input + tail)[..8] == input[..8] && (input + tail)[8..] == input[8..] + tail;
    case Flag => assert (input + tail)[1..] == input[1..] + tail;
    case Octet => assert (input + tail)[1..] == input[1..] + tail;
  }

  lemma {:induction false} ReadExtend(shapes: seq<Shape>, input: Bytes, tail: Bytes)
    requires ReadAll(shapes, input).Ok?
    ensures var g := ReadAll(shapes, input).value; ReadAll(shapes, input + tail) == Ok(Got(g.value, g.rest + tail))
    decreases |shapes|
  {
    hide ReadOne;
    if shapes != [] {
      ReadOneExtend(shapes[0], input, tail);
      ReadExtend(shapes[1..], ReadOne(shapes[0], input).value.rest, tail);
    }
  }

  /** A record read to the end of its input is no strict prefix of another. */
  lemma PrefixFree(shapes: seq<Shape>, input: Bytes, n: nat)
    requires n < |input|
    requires ReadAll(shapes, input).Ok? && ReadAll(shapes, input).value.rest == []
    ensures !(ReadAll(shapes, input[..n]).Ok? && ReadAll(shapes, input[..n]).value.rest == [])
  {
    assert input[..n] + input[n..] == input;
    if ReadAll(shapes, input[..n]).Ok? {
      ReadExtend(shapes, input[..n], input[n..]);
    }
    hide ReadAll;
  }

  // ---- printing ----

  /** Flags are not canonical: any byte but 0 reads as true. */
  predicate Printable(shapes: seq<Shape>, data: seq<Datum>) {
    Matches(shapes, data) && forall i :: 0 <= i < |shapes| ==>
      && !shapes[i].Flag?
      && (shapes[i].Text? ==> |data[i].text| <= shapes[i].bound)
      && (shapes[i].Number32? ==> data[i].n < 0x1_0000_0000)
      && (shapes[i].Number64? ==> data[i].n < 0x1_0000_0000_0000_0000)
      && (shapes[i].Octet? ==> data[i].n < 256)
  }

  function PrintOne(shape: Shape, d: Datum): Bytes
    requires Printable([shape], [d])
  {
    assert [shape][0] == shape && [d][0] == d;
    match shape
    case Text(_) => PutString(d.text)
    case Number32 => PutU32(d.n)
    case Number64 => PutU64(d.n)
    case Octet => [d.n]
  }

  function Print(shapes: seq<Shape>, data: seq<Datum>): Bytes
    requires Printable(shapes, data)
  {
    if shapes == [] then []
    else
      PrintableParts(shapes, data);
      PrintOne(shapes[0], data[0]) + Print(shapes[1..], data[1..])
  }

  lemma PrintableParts(shapes: seq<Shape>, data: seq<Datum>)
    requires Printable(shapes, data) && shapes != []
    ensures Printable([shapes[0]], [data[0]]) && Printable(shapes[1..], data[1..])
  {
  }

  lemma ReadPrintOne(shape: Shape, d: Datum, tail: Bytes)
    requires Printable([shape], [d])
    ensures ReadOne(shape, PrintOne(shape, d) + tail) == Ok(Got(d, tail))
  {
    assert [shape][0] == shape && [d][0] == d;
    match shape
    case Text(bound) => GetPutString(d.text, tail, bound);
    case Number32 => GetPutU32(d.n, tail);
    case Number64 => GetPutU64(d.n, tail);
    case Octet => assert ([d.n] + tail)[1..] == tail;
  }

  /** Reading undoes printing, so a printed record determines every field. */
  lemma {:induction false} ReadPrint(shapes: seq<Shape>, data: seq<Datum>, tail: Bytes)
    requires Printable(shapes, data)
    ensures ReadAll(shapes, Print(shapes, data) + tail) == Ok(Got(data, tail))
    decreases |shapes|
  {
    hide ReadOne, PrintOne;
    if shapes == [] {
      assert Print(shapes, data) + tail == tail;
    } else {
      PrintableParts(shapes, data);
      var rest := Print(shapes[1..], data[1..]) + tail;
      ReadPrintOne(shapes[0], data[0], rest);
      ReadPrint(shapes[1..], data[1..], tail);
      assert Print(shapes, data) + tail == PrintOne(shapes[0], data[0]) + rest;
      assert data == [data[0]] + data[1..];
    }
  }

  lemma PrintReadOne(shape: Shape, input: Bytes)
    requires !shape.Flag? && ReadOne(shape, input).Ok?
    ensures var g := ReadOne(shape, input).value;
            Printable([shape], [g.value]) && input == PrintOne(shape, g.value) + g.rest
  {
    match shape
    case Text(bound) => PutGetString(input, bound);
    case Number32 => PutGetU32(input);
    case Number64 => PutGetU64(input);
    case Octet =>
  }

  /** Printing undoes reading: every accepted encoding is canonical. */
  lemma {:induction false} PrintRead(shapes: seq<Shape>, input: Bytes)
    requires ReadAll(shapes, input).Ok? && forall i :: 0 <= i < |shapes| ==> !shapes[i].Flag?
    ensures var g := ReadAll(shapes, input).value;
            Printable(shapes, g.value) && input == Print(shapes, g.value) + g.rest
    decreases |shapes|
  {
    hide ReadOne, PrintOne;
    if shapes != [] {
      PrintReadOne(shapes[0], input);
      var head := ReadOne(shapes[0], input).value;
      PrintRead(shapes[1..], head.rest);
      var tail := ReadAll(shapes[1..], head.rest).value;
      assert ([head.value] + tail.value)[1..] == tail.value;
      PrintableJoin(shapes, head.value, tail.value);
    }
  }

  lemma PrintableJoin(shapes: seq<Shape>, d: Datum, data: seq<Datum>)
    requires shapes != [] && Printable([shapes[0]], [d]) && Printable(shapes[1..], data)
    ensures Printable(shapes, [d] + data)
  {
    assert [shapes[0]][0] == shapes[0] && [d][0] == d;
    forall i | 0 < i < |shapes| ensures shapes[i] == shapes[1..][i - 1] && ([d] + data)[i] == data[i - 1] {
    }
  }

  lemma PrintableFront(shapes: seq<Shape>, data: seq<Datum>, k: nat)
    requires Printable(shapes, data) && k <= |shapes|
    ensures Printable(shapes[..k], data[..k])
    ensures k < |shapes| ==> Printable([shapes[k]], [data[k]])
  {
    assert k < |shapes| ==> [shapes[k]][0] == shapes[k] && [data[k]][0] == data[k];
  }

  /** The first `k` fields, printed. */
  function Printed(shapes: seq<Shape>, data: seq<Datum>, k: nat): Bytes
    requires Printable(shapes, data) && k <= |shapes|
  {
    PrintableFront(shapes, data, k);
    Print(shapes[..k], data[..k])
  }

  lemma {:induction false} PrintSplit(shapes: seq<Shape>, data: seq<Datum>, k: nat)
    requires Printable(shapes, data) && k <= |shapes|
    ensures Printable(shapes[..k], data[..k]) && Printable(shapes[k..], data[k..])
    ensures Print(shapes, data) == Print(shapes[..k], data[..k]) + Print(shapes[k..], data[k..])
    decreases |shapes|
  {
    PrintableFront(shapes, data, k);
    hide PrintOne, Printable;
    if k > 0 {
      PrintableParts(shapes, data);
      PrintSplit(shapes[1..], data[1..], k - 1);
      Resliced(shapes, k);
      Resliced(data, k);
      assert shapes[..k][0] == shapes[0] && data[..k][0] == data[0];
    } else {
      assert shapes[k..] == shapes && data[k..] == data;
    }
  }

  lemma Resliced<T>(s: seq<T>, k: nat)
    requires 0 < k <= |s|
    ensures s[..k][1..] == s[1..][..k - 1] && s[1..][k - 1..] == s[k..]
  {
  }

  /** Field by field, from the front. */
  lemma PrintNext(shapes: seq<Shape>, data: seq<Datum>, k: nat)
    requires Printable(shapes, data) && k < |shapes|
    ensures Printable([shapes[k]], [data[k]])
    ensures Printed(shapes, data, k + 1) == Printed(shapes, data, k) + PrintOne(shapes[k], data[k])
  {
    PrintableFront(shapes, data, k);
    PrintableFront(shapes, data, k + 1);
    var ss, dd := shapes[..k + 1], data[..k + 1];
    PrintSplit(ss, dd, k);
    assert ss[..k] == shapes[..k] && dd[..k] == data[..k] && ss[k..] == [shapes[k]] && dd[k..] == [data[k]];
    PrintSingle(shapes[k], data[k]);
  }

  lemma PrintSingle(shape: Shape, d: Datum)
    requires Printable([shape], [d])
    ensures Print([shape], [d]) == PrintOne(shape, d)
  {
    hide PrintOne;
    assert [shape][1..] == [] && [d][1..] == [];
  }

  lemma PrintedEnds(shapes: seq<Shape>, data: seq<Datum>)
    requires Printable(shapes, data)
    ensures Printed(shapes, data, 0) == [] && Printed(shapes, data, |shapes|) == Print(shapes, data)
  {
    assert shapes[..|shapes|] == shapes && data[..|shapes|] == data;
    assert shapes[..0] == [] && data[..0] == [];
  }
}
