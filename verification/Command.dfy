/**
 How commands are written: one command as a string or as a buffer, and a pipeline's commands gathered
 into a single write.
 */
module Command {
  import opened Bytes
  import opened RespMachine
  import opened RespWire
  import opened Utf8

  /** An argument once stringified: text, or a Buffer. */
  datatype Arg = Text(text: JsString) | Data(data: bytes)

  function ArgBytes(a: Arg): bytes {
    match a case Text(text) => Utf8.Encode(text) case Data(data) => data
  }

  /** The reply a command on the wire looks like: an array of bulk strings. */
  function Bulks(args: seq<Arg>): (items: seq<Resp>)
    ensures |items| == |args|
    ensures forall i :: 0 <= i < |args| ==> items[i] == RBulk(ArgBytes(args[i]))
  {
    if args == [] then [] else [RBulk(ArgBytes(args[0]))] + Bulks(args[1..])
  }

  function WireCommand(name: JsString, args: seq<Arg>): Resp {
    RArray(Bulks([Text(name)] + args))
  }

  /** What is handed to a stream: a string, which it encodes as UTF-8, or a buffer. */
  datatype Writable = Chars(chars: JsString) | Octets(octets: bytes)

  function Written(w: Writable): bytes {
    match w case Chars(chars) => Utf8.Encode(chars) case Octets(octets) => octets
  }

  /** Text that neither starts nor ends inside a surrogate pair. */
  predicate Whole(s: JsString) {
    s != [] ==> !Low(s[0]) && !High(s[|s| - 1])
  }

  predicate WholeWritable(w: Writable) {
    w.Chars? ==> Whole(w.chars)
  }

  const STAR: JsString := [42]
  const DOLLAR: JsString := [36]
  const NEWLINE: JsString := [13, 10]

  /** A number or another value that String() turned into text. */
  datatype RawArg = Plain(arg: Arg) | Other(shown: JsString)

  /** "$<bytes>\r\n<text>\r\n" */
  function BulkChars(text: JsString): JsString {
    DOLLAR + Decimal(|Utf8.Encode(text)|) + NEWLINE + text + NEWLINE
  }

  lemma DecimalIsAscii(n: nat)
    ensures Ascii(Decimal(n))
  {
  }

  lemma HeaderEncodes(prefix: JsString, n: nat)
    requires Ascii(prefix)
    ensures Ascii(prefix + Decimal(n) + NEWLINE)
    ensures Utf8.Encode(prefix + Decimal(n) + NEWLINE) == prefix + Decimal(n) + CRLF
  {
    DecimalIsAscii(n);
    EncodeAscii(prefix + Decimal(n) + NEWLINE);
  }

  /** The wire form of a bulk string, cut where the code concatenates it. */
  lemma WireBulk(data: bytes)
    ensures RespWire.Encode(RBulk(data)) == DOLLAR + Decimal(|data|) + CRLF + (data + CRLF)
    ensures RespWire.Encode(RBulk(data)) == DOLLAR + Decimal(|data|) + CRLF + data + CRLF
  {
    hide Decimal, RespWire.Encode;
    EncodeBulk(data);
    Regroup(Decimal(|data|), data);
  }

  lemma EncodeBulk(data: bytes)
    ensures RespWire.Encode(RBulk(data)) == [BLOB_STRING_TAG] + (Decimal(|data|) + CRLF + (data + CRLF))
  {
    hide Decimal;
  }

  lemma Regroup(length: bytes, data: bytes)
    ensures [BLOB_STRING_TAG] + (length + CRLF + (data + CRLF)) == DOLLAR + length + CRLF + (data + CRLF)
    ensures DOLLAR + length + CRLF + (data + CRLF) == DOLLAR + length + CRLF + data + CRLF
  {
  }

  lemma BulkCharsEncode(text: JsString)
    ensures Utf8.Encode(BulkChars(text)) == RespWire.Encode(RBulk(Utf8.Encode(text)))
    ensures |BulkChars(text)| > 0 && BulkChars(text)[0] == 36 && BulkChars(text)[|BulkChars(text)| - 1] == 10
  {
    hide Utf8.Encode, RespWire.Encode, Decimal;
    var data := Utf8.Encode(text);
    var header: JsString := DOLLAR + Decimal(|data|) + NEWLINE;
    HeaderEncodes(DOLLAR, |data|);
    EncodeConcat(header, text + NEWLINE);
    EncodeConcat(text, NEWLINE);
    EncodeAscii(NEWLINE);
    assert BulkChars(text) == header + (text + NEWLINE);
    WireBulk(data);
  }

  lemma EmptyBulk()
    ensures RespWire.Encode(RBulk([])) == [36, 48, 13, 10, 13, 10]
    ensures Utf8.Encode([36, 48, 13, 10, 13, 10]) == [36, 48, 13, 10, 13, 10]
  {
    WireBulk([]);
    assert Decimal(0) == [48];
    EncodeAscii([36, 48, 13, 10, 13, 10]);
  }

  lemma {:induction false} EncodeAllSnoc(items: seq<Resp>, t: Resp)
    ensures EncodeAll(items + [t]) == EncodeAll(items) + RespWire.Encode(t)
    decreases |items|
  {
    hide RespWire.Encode;
    if items == [] {
      assert items + [t] == [t];
      assert EncodeAll([t]) == RespWire.Encode(t) + EncodeAll([]);
    } else {
      assert (items + [t])[1..] == items[1..] + [t];
      EncodeAllSnoc(items[1..], t);
    }
  }

  lemma BulksSnoc(args: seq<Arg>, a: Arg)
    ensures Bulks(args + [a]) == Bulks(args) + [RBulk(ArgBytes(a))]
  {
  }

  /** The bytes of a command whose first n arguments are still to be counted from a header for all of them. */
  function WirePrefix(name: JsString, args: seq<Arg>, n: nat): bytes
    requires n <= |args|
  {
    STAR + Decimal(|args| + 1) + CRLF + EncodeAll(Bulks([Text(name)] + args[..n]))
  }

  lemma WirePrefixStep(name: JsString, args: seq<Arg>, n: nat)
    requires n < |args|
    ensures WirePrefix(name, args, n + 1) == WirePrefix(name, args, n) + RespWire.Encode(RBulk(ArgBytes(args[n])))
  {
    hide RespWire.Encode;
    var before := [Text(name)] + args[..n];
    assert [Text(name)] + args[..n + 1] == before + [args[n]];
    BulksSnoc(before, args[n]);
    EncodeAllSnoc(Bulks(before), RBulk(ArgBytes(args[n])));
  }

  lemma WirePrefixAll(name: JsString, args: seq<Arg>)
    ensures WirePrefix(name, args, |args|) == RespWire.Encode(WireCommand(name, args))
  {
    assert args[..|args|] == args;
  }

  lemma OneEncoded(item: Resp)
    ensures EncodeAll([item]) == RespWire.Encode(item)
  {
    hide RespWire.Encode;
    assert [item][1..] == [];
    assert EncodeAll([item]) == RespWire.Encode(item) + EncodeAll([]);
    assert RespWire.Encode(item) + [] == RespWire.Encode(item);
  }

  lemma OneBulk(name: JsString, args: seq<Arg>)
    ensures Bulks([Text(name)] + args[..0]) == [RBulk(Utf8.Encode(name))]
  {
    hide Utf8.Encode;
    assert [Text(name)] + args[..0] == [Text(name)];
  }

  /** The header every command starts with, up to and including its name. */
  lemma CommandStringEncodes(name: JsString, args: seq<Arg>)
    ensures Utf8.Encode(STAR + Decimal(|args| + 1) + NEWLINE + BulkChars(name)) == WirePrefix(name, args, 0)
  {
    hide Utf8.Encode, RespWire.Encode, RespWire.EncodeAll, Decimal, Bulks, BulkChars;
    var header: JsString := STAR + Decimal(|args| + 1) + NEWLINE;
    HeaderEncodes(STAR, |args| + 1);
    BulkCharsEncode(name);
    EncodeConcat(header, BulkChars(name));
    OneBulk(name, args);
    OneEncoded(RBulk(Utf8.Encode(name)));
  }

  /** Strings and buffers collected in order, copied into one buffer at the end. */
  class MixedBuffers {
    var length: nat
    var items: seq<Writable>

    constructor ()
      ensures Valid() && Contents() == []
    {
      length, items := 0, [];
    }

    ghost predicate Valid()
      reads this
    {
      length == |Contents()|
    }

    ghost function Contents(): bytes
      reads this
    {
      AllWritten(items)
    }

    method Push(x: Writable)
      requires Valid()
      modifies this
      ensures Valid() && Contents() == old(Contents()) + Written(x)
    {
      AllWrittenSnoc(items, x);
      length := length + |Written(x)|;
      items := items + [x];
    }

    method ToBuffer() returns (result: array<byte>)
      requires Valid()
      ensures fresh(result) && result[..] == Contents()
    {
      hide AllWritten, Written;
      result := new byte[length];
      var offset := 0;
      NothingWritten();
      for i := 0 to |items|
        invariant offset == |AllWritten(items[..i])| && offset <= length
        invariant result[..offset] == AllWritten(items[..i])
      {
        var data := Written(items[i]);
        assert items[..i + 1] == items[..i] + [items[i]];
        AllWrittenSnoc(items[..i], items[i]);
        AllWrittenPrefix(items, i + 1);
        CopyInto(result, offset, data);
        offset := offset + |data|;
      }
      assert items[..|items|] == items;
    }
  }

  method CopyInto(result: array<byte>, offset: nat, data: bytes)
    requires offset + |data| <= result.Length
    modifies result
    ensures result[..offset + |data|] == old(result[..offset]) + data
  {
    forall k | 0 <= k < |data| {
      result[offset + k] := data[k];
    }
  }

  lemma NothingWritten()
    ensures AllWritten([]) == []
  {
  }

  function AllWritten(ws: seq<Writable>): bytes {
    if ws == [] then [] else Written(ws[0]) + AllWritten(ws[1..])
  }

  lemma {:induction false} AllWrittenSnoc(ws: seq<Writable>, w: Writable)
    ensures AllWritten(ws + [w]) == AllWritten(ws) + Written(w)
  {
    if ws == [] {
      assert ws + [w] == [w];
      assert AllWritten([w]) == Written(w) + AllWritten([]);
    } else {
      assert (ws + [w])[1..] == ws[1..] + [w];
      AllWrittenSnoc(ws[1..], w);
    }
  }

  lemma {:induction false} AllWrittenPrefix(ws: seq<Writable>, n: nat)
    requires n <= |ws|
    ensures |AllWritten(ws[..n])| <= |AllWritten(ws)|
    decreases |ws| - n
  {
    if n == |ws| {
      assert ws[..n] == ws;
    } else {
      assert ws[..n + 1] == ws[..n] + [ws[n]];
      AllWrittenSnoc(ws[..n], ws[n]);
      AllWrittenPrefix(ws, n + 1);
    }
  }

  /** A command's arguments are stringified once; a Buffer among them selects the buffer path. */
  method StringifyArguments(raw: seq<RawArg>) returns (args: seq<Arg>, bufferMode: bool)
    ensures |args| == |raw|
    ensures forall i :: 0 <= i < |raw| ==> args[i] == match raw[i] case Plain(a) => a case Other(shown) => Text(shown)
    ensures bufferMode <==> exists a :: a in args && a.Data?
  {
    args, bufferMode := [], false;
    for i := 0 to |raw|
      invariant |args| == i
      invariant forall j :: 0 <= j < i ==> args[j] == match raw[j] case Plain(a) => a case Other(shown) => Text(shown)
      invariant bufferMode <==> exists a :: a in args && a.Data?
    {
      match raw[i] {
        case Plain(a) =>
          bufferMode := bufferMode || a.Data?;
          args := args + [a];
        case Other(shown) => args := args + [Text(shown)];
      }
    }
  }

  /** The string path and the buffer path write the same bytes: the RESP array of the name and arguments. */
  method ToWritable(name: JsString, args: seq<Arg>, bufferMode: bool) returns (w: Writable)
    requires bufferMode <==> exists a :: a in args && a.Data?
    ensures Written(w) == RespWire.Encode(WireCommand(name, args))
    ensures WholeWritable(w) && (w.Octets? <==> bufferMode)
  {
    var command: JsString := STAR + Decimal(|args| + 1) + NEWLINE + BulkChars(name);
    CommandStringEncodes(name, args);
    BulkCharsEncode(name);
    if bufferMode {
      w := ToBufferWritable(command, name, args);
    } else {
      w := ToTextWritable(command, name, args);
    }
  }

  method ToTextWritable(command: JsString, name: JsString, args: seq<Arg>) returns (w: Writable)
    requires forall a :: a in args ==> a.Text?
    requires |command| > 0 && command[0] == 42 && command[|command| - 1] == 10
    requires Utf8.Encode(command) == WirePrefix(name, args, 0)
    ensures w.Chars? && Written(w) == RespWire.Encode(WireCommand(name, args)) && WholeWritable(w)
  {
    hide WirePrefix, RespWire.Encode;
    var result := command;
    for i := 0 to |args|
      invariant Utf8.Encode(result) == WirePrefix(name, args, i)
      invariant |result| > 0 && result[0] == 42 && result[|result| - 1] == 10
    {
      BulkCharsEncode(args[i].text);
      EncodeConcat(result, BulkChars(args[i].text));
      WirePrefixStep(name, args, i);
      result := result + BulkChars(args[i].text);
    }
    WirePrefixAll(name, args);
    w := Chars(result);
  }

  method PushData(buffers: MixedBuffers, data: bytes)
    requires buffers.Valid()
    modifies buffers
    ensures buffers.Valid() && buffers.Contents() == old(buffers.Contents()) + RespWire.Encode(RBulk(data))
  {
    hide RespWire.Encode, AllWritten, Utf8.Encode, Decimal;
    ghost var before := buffers.Contents();
    if |data| == 0 {
      EmptyBulk();
      assert data == [];
      buffers.Push(Chars([36, 48, 13, 10, 13, 10]));
    } else {
      HeaderEncodes(DOLLAR, |data|);
      EncodeAscii(NEWLINE);
      WireBulk(data);
      buffers.Push(Chars(DOLLAR + Decimal(|data|) + NEWLINE));
      buffers.Push(Octets(data));
      buffers.Push(Chars(NEWLINE));
      var header := DOLLAR + Decimal(|data|) + CRLF;
      assert before + header + data + CRLF == before + (header + data + CRLF);
    }
  }

  method ToBufferWritable(command: JsString, name: JsString, args: seq<Arg>) returns (w: Writable)
    requires Utf8.Encode(command) == WirePrefix(name, args, 0)
    ensures w.Octets? && Written(w) == RespWire.Encode(WireCommand(name, args))
  {
    hide WirePrefix, RespWire.Encode, AllWritten, Utf8.Encode, Decimal;
    var buffers := new MixedBuffers();
    buffers.Push(Chars(command));
    assert [] + Utf8.Encode(command) == Utf8.Encode(command);
    for i := 0 to |args|
      invariant buffers.Valid() && fresh(buffers)
      invariant buffers.Contents() == WirePrefix(name, args, i)
    {
      WirePrefixStep(name, args, i);
      match args[i] {
        case Data(data) => PushData(buffers, data);
        case Text(text) =>
          BulkCharsEncode(text);
          buffers.Push(Chars(BulkChars(text)));
      }
    }
    WirePrefixAll(name, args);
    var result := buffers.ToBuffer();
    w := Octets(result[..]);
  }
}
