/** The token-level view of Gson's streaming API (JsonWriter and JsonReader),
    reduced to what the envelope codec uses: a writer that appends tokens and a
    reader that is a cursor over an already lexed token sequence. */
module JsonStream {
  import opened Wrappers

  /** One lexical token of a JSON document. A NUMBER keeps its literal text. */
  datatype Token =
    | BeginArray
    | EndArray
    | BeginObject
    | EndObject
    | Name(name: string)
    | Str(text: string)
    | Number(literal: string)
    | Bool(b: bool)
    | Null

  /** What JsonReader.peek reports at `pos`: the token there, or None for
      END_DOCUMENT once the input is exhausted. */
  function PeekAt(ts: seq<Token>, pos: nat): (r: Option<Token>)
    ensures r.Some? <==> pos < |ts|
    ensures r.Some? ==> r.value == ts[pos]
  {
    if pos < |ts| then Some(ts[pos]) else None
  }

  /** One cursor step: the value the reader call returns and the position after
      it, or a refusal (JsonReader's IllegalStateException "Expected X but was
      Y"), reporting what it found there; a refused call consumes nothing. */
  datatype Step<T> = Took(value: T, next: nat) | Refused(found: Option<Token>)

  /** JsonReader.beginObject. */
  function BeginObjectAt(ts: seq<Token>, pos: nat): (r: Step<()>)
    ensures r.Took? <==> PeekAt(ts, pos) == Some(BeginObject)
    ensures r.Took? ==> r.next == pos + 1
    ensures r.Refused? ==> r.found == PeekAt(ts, pos)
  {
    match PeekAt(ts, pos)
    case Some(BeginObject) => Took((), pos + 1)
    case found => Refused(found)
  }

  /** JsonReader.endObject. */
  function EndObjectAt(ts: seq<Token>, pos: nat): (r: Step<()>)
    ensures r.Took? <==> PeekAt(ts, pos) == Some(EndObject)
    ensures r.Took? ==> r.next == pos + 1
    ensures r.Refused? ==> r.found == PeekAt(ts, pos)
  {
    match PeekAt(ts, pos)
    case Some(EndObject) => Took((), pos + 1)
    case found => Refused(found)
  }

  /** JsonReader.nextName: only a NAME token is accepted. */
  function NextNameAt(ts: seq<Token>, pos: nat): (r: Step<string>)
    ensures r.Took? <==> pos < |ts| && ts[pos].Name?
    ensures r.Took? ==> r.value == ts[pos].name && r.next == pos + 1
    ensures r.Refused? ==> r.found == PeekAt(ts, pos)
  {
    match PeekAt(ts, pos)
    case Some(Name(n)) => Took(n, pos + 1)
    case found => Refused(found)
  }

  /** JsonReader.nextString: a STRING token gives its text and, as in Gson, a
      NUMBER token gives its literal; anything else is refused. */
  function NextStringAt(ts: seq<Token>, pos: nat): (r: Step<string>)
    ensures r.Took? <==> pos < |ts| && (ts[pos].Str? || ts[pos].Number?)
    ensures r.Took? && ts[pos].Str? ==> r.value == ts[pos].text
    ensures r.Took? && ts[pos].Number? ==> r.value == ts[pos].literal
    ensures r.Took? ==> r.next == pos + 1
    ensures r.Refused? ==> r.found == PeekAt(ts, pos)
  {
    match PeekAt(ts, pos)
    case Some(Str(s)) => Took(s, pos + 1)
    case Some(Number(lit)) => Took(lit, pos + 1)
    case found => Refused(found)
  }

  /** The destination of a write: every call appends to `written`. */
  class JsonWriter {
    var written: seq<Token>

    constructor ()
      ensures written == []
    {
      written := [];
    }

    method NullValue()
      modifies this
      ensures written == old(written) + [Null]
    {
      written := written + [Null];
    }

    method BeginObject()
      modifies this
      ensures written == old(written) + [Token.BeginObject]
    {
      written := written + [Token.BeginObject];
    }

    method Name(name: string)
      modifies this
      ensures written == old(written) + [Token.Name(name)]
    {
      written := written + [Token.Name(name)];
    }

    /** JsonWriter.value(String). */
    method Value(text: string)
      modifies this
      ensures written == old(written) + [Str(text)]
    {
      written := written + [Str(text)];
    }

    method EndObject()
      modifies this
      ensures written == old(written) + [Token.EndObject]
    {
      written := written + [Token.EndObject];
    }

    /** The tokens another codec writes through this writer. */
    method WriteAll(ts: seq<Token>)
      modifies this
      ensures written == old(written) + ts
    {
      written := written + ts;
    }
  }

  /** The source of a read: a fixed token sequence and a cursor into it. */
  class JsonReader {
    const tokens: seq<Token>
    var pos: nat

    constructor (ts: seq<Token>)
      ensures tokens == ts && pos == 0
    {
      tokens := ts;
      pos := 0;
    }

    method Peek() returns (r: Option<Token>)
      ensures r == PeekAt(tokens, pos)
    {
      r := PeekAt(tokens, pos);
    }

    method BeginObject() returns (r: Step<()>)
      modifies this
      ensures r == BeginObjectAt(tokens, old(pos))
      ensures pos == if r.Took? then r.next else old(pos)
    {
      r := BeginObjectAt(tokens, pos);
      if r.Took? { pos := r.next; }
    }

    method EndObject() returns (r: Step<()>)
      modifies this
      ensures r == EndObjectAt(tokens, old(pos))
      ensures pos == if r.Took? then r.next else old(pos)
    {
      r := EndObjectAt(tokens, pos);
      if r.Took? { pos := r.next; }
    }

    method NextName() returns (r: Step<string>)
      modifies this
      ensures r == NextNameAt(tokens, old(pos))
      ensures pos == if r.Took? then r.next else old(pos)
    {
      r := NextNameAt(tokens, pos);
      if r.Took? { pos := r.next; }
    }

    method NextString() returns (r: Step<string>)
      modifies this
      ensures r == NextStringAt(tokens, old(pos))
      ensures pos == if r.Took? then r.next else old(pos)
    {
      r := NextStringAt(tokens, pos);
      if r.Took? { pos := r.next; }
    }

    /** Moves the cursor to where another codec stopped reading. */
    method Seek(next: nat)
      modifies this
      ensures pos == next
    {
      pos := next;
    }
  }
}
