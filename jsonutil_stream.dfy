/** Reading a file that holds JSON values one after another, with no
    enclosing array: the file is read in chunks of 4096 characters, each
    chunk is appended to a buffer, and every complete value at the front of
    the buffer is decoded and handed out, until the file is exhausted.

    `raw_decode` is a parameter: it either fails or answers a value and the
    number of characters it consumed. Two behaviours are modelled: the loop
    as written, which strips blanks from both ends of every chunk and of
    every leftover buffer, and the corrected loop, which only strips leading
    blanks before each decode. */
module JsonStream {
  import opened Wrappers
  import opened Text
  import opened Python

  /** Characters asked of `read` per call. */
  const ReadSize: nat := 1024 * 4

  /** `JSONDecoder.raw_decode`: a value and the end index, or None where it
      raises. */
  type RawDecode = string -> Option<(Value, nat)>

  /** A successful decode of `s` consumes at least one character, and no
      more than it was given. */
  ghost predicate ProgressAt(decode: RawDecode, s: string) {
    decode(s).Some? ==> 0 < decode(s).value.1 <= |s|
  }

  ghost predicate Consumes(decode: RawDecode) {
    forall s :: ProgressAt(decode, s)
  }

  /** A complete value at the front of `s` decodes the same when `t` is
      appended. JSON objects, arrays, strings and literals have this
      property; a number cut in the middle of its digits does not. */
  ghost predicate StableAt(decode: RawDecode, s: string, t: string) {
    decode(s).Some? ==> decode(s + t) == decode(s)
  }

  ghost predicate PrefixStable(decode: RawDecode) {
    forall s, t :: StableAt(decode, s, t)
  }

  lemma ConsumesAt(decode: RawDecode, s: string)
    requires Consumes(decode) && decode(s).Some?
    ensures 0 < decode(s).value.1 <= |s|
  {
    assert ProgressAt(decode, s);
  }

  lemma PrefixStableAt(decode: RawDecode, s: string, t: string)
    requires PrefixStable(decode) && decode(s).Some?
    ensures decode(s + t) == decode(s)
  {
    assert StableAt(decode, s, t);
  }

  /** Nothing decodes from nothing. */
  lemma EmptyUndecodable(decode: RawDecode)
    requires Consumes(decode)
    ensures decode([]).None?
  {
    if decode([]).Some? {
      ConsumesAt(decode, []);
    }
  }

  // ---------------------------------------------------------------------
  // The loop as written

  /** The inner loop as written: decode from the front; after each value,
      the rest of the buffer is stripped on both sides. Answers the values
      and the buffer left when a decode fails. A decode that would not
      advance ends the loop; under `Consumes` that never happens. */
  function DrainAsWritten(decode: RawDecode, buffer: string): (r: (seq<Value>, string))
    ensures |r.1| <= |buffer|
    decreases |buffer|
  {
    var decoded := decode(buffer);
    if decoded.Some? && 0 < decoded.value.1 <= |buffer| then
      var rest := DrainAsWritten(decode, Strip(buffer[decoded.value.1..]));
      ([decoded.value.0] + rest.0, rest.1)
    else
      ([], buffer)
  }

  /** The outer loop as written, over the chunks `read` delivered: each
      chunk is stripped on both sides before it joins the buffer. */
  function LoadAsWritten(decode: RawDecode, chunks: seq<string>): (r: (seq<Value>, string))
  {
    if |chunks| == 0 then ([], [])
    else
      var before := LoadAsWritten(decode, chunks[..|chunks| - 1]);
      var after := DrainAsWritten(decode, before.1 + Strip(chunks[|chunks| - 1]));
      (before.0 + after.0, after.1)
  }

  // ---------------------------------------------------------------------
  // The corrected loop

  /** The inner loop: leading blanks are skipped before each decode, and
      nothing else is removed. */
  function Drain(decode: RawDecode, buffer: string): (r: (seq<Value>, string))
    ensures |r.1| <= |buffer|
    decreases |buffer|
  {
    var b := LStrip(buffer);
    var decoded := decode(b);
    if decoded.Some? && 0 < decoded.value.1 <= |b| then
      var rest := Drain(decode, b[decoded.value.1..]);
      ([decoded.value.0] + rest.0, rest.1)
    else
      ([], b)
  }

  /** The outer loop: every chunk joins the buffer unchanged. */
  function Load(decode: RawDecode, chunks: seq<string>): (r: (seq<Value>, string))
  {
    if |chunks| == 0 then ([], [])
    else
      var before := Load(decode, chunks[..|chunks| - 1]);
      var after := Drain(decode, before.1 + chunks[|chunks| - 1]);
      (before.0 + after.0, after.1)
  }

  /** The inner loop as written ends only where `raw_decode` raises. */
  lemma {:induction false} DrainAsWrittenStops(decode: RawDecode, buffer: string)
    requires Consumes(decode)
    ensures decode(DrainAsWritten(decode, buffer).1).None?
    decreases |buffer|
  {
    if decode(buffer).Some? {
      ConsumesAt(decode, buffer);
      DrainAsWrittenStops(decode, Strip(buffer[decode(buffer).value.1..]));
    }
  }

  /** The corrected inner loop ends only where `raw_decode` raises, with the
      leading blanks of what is left already skipped. */
  lemma {:induction false} DrainStops(decode: RawDecode, buffer: string)
    requires Consumes(decode)
    ensures decode(Drain(decode, buffer).1).None?
    ensures LStrip(Drain(decode, buffer).1) == Drain(decode, buffer).1
    decreases |buffer|
  {
    var b := LStrip(buffer);
    if decode(b).Some? {
      ConsumesAt(decode, b);
      DrainStops(decode, b[decode(b).value.1..]);
    } else {
      assert LStrip(b) == b;
    }
  }

  /** Draining only looks at the buffer from its first non-blank on. */
  lemma DrainStripped(decode: RawDecode, buffer: string)
    requires Consumes(decode)
    ensures Drain(decode, buffer) == Drain(decode, LStrip(buffer))
  {
    var b := LStrip(buffer);
    assert LStrip(b) == b;
  }

  /** A buffer that yields nothing leaves its stripped self behind, and the
      new text is drained after it. */
  lemma DrainAppendStuck(decode: RawDecode, b: string, t: string)
    requires Consumes(decode) && decode(LStrip(b)).None?
    ensures Drain(decode, b) == ([], LStrip(b))
    ensures Drain(decode, b + t) == Drain(decode, LStrip(b) + t)
  {
    var lb := LStrip(b);
    assert LStrip(lb) == lb;
    LStripAppend(b, t);
    LStripAppend(lb, t);
    assert LStrip(b + t) == LStrip(lb + t);
    DrainStripped(decode, b + t);
    DrainStripped(decode, lb + t);
  }

  /** A buffer that yields a value yields the same value when text is
      appended, and continues on the rest of the value's buffer. */
  lemma DrainAppendValue(decode: RawDecode, b: string, t: string)
    requires Consumes(decode) && PrefixStable(decode) && decode(LStrip(b)).Some?
    ensures var (v, n) := decode(LStrip(b)).value;
      0 < n <= |LStrip(b)|
      && Drain(decode, b).0 == [v] + Drain(decode, LStrip(b)[n..]).0
      && Drain(decode, b).1 == Drain(decode, LStrip(b)[n..]).1
      && Drain(decode, b + t).0 == [v] + Drain(decode, LStrip(b)[n..] + t).0
      && Drain(decode, b + t).1 == Drain(decode, LStrip(b)[n..] + t).1
  {
    var lb := LStrip(b);
    var (v, n) := decode(lb).value;
    LStripAppend(b, t);
    ConsumesAt(decode, lb);
    PrefixStableAt(decode, lb, t);
    assert LStrip(b + t) == lb + t;
    assert (lb + t)[n..] == lb[n..] + t;
    DrainStep(decode, b);
    DrainStep(decode, b + t);
  }

  /** The bookkeeping of `DrainAppend`'s inductive step, for any function
      in the place of draining. */
  lemma PrependStep(d: string -> (seq<Value>, string), b: string, t: string, rest: string, v: Value)
    requires d(b).0 == [v] + d(rest).0 && d(b).1 == d(rest).1
    requires d(b + t).0 == [v] + d(rest + t).0 && d(b + t).1 == d(rest + t).1
    requires d(rest + t).0 == d(rest).0 + d(d(rest).1 + t).0 && d(rest + t).1 == d(d(rest).1 + t).1
    ensures d(b + t).0 == d(b).0 + d(d(b).1 + t).0 && d(b + t).1 == d(d(b).1 + t).1
  {
    var front := d(rest).0;
    var back := d(d(rest).1 + t).0;
    assert [v] + (front + back) == ([v] + front) + back;
  }

  /** Draining a buffer that grows: what the front yields first, then what
      its leftover yields together with the new text. */
  lemma {:induction false} DrainAppend(decode: RawDecode, b: string, t: string)
    requires Consumes(decode) && PrefixStable(decode)
    ensures Drain(decode, b + t).0 == Drain(decode, b).0 + Drain(decode, Drain(decode, b).1 + t).0
    ensures Drain(decode, b + t).1 == Drain(decode, Drain(decode, b).1 + t).1
    decreases |b|
  {
    var lb := LStrip(b);
    if decode(lb).None? {
      DrainAppendStuck(decode, b, t);
      assert [] + Drain(decode, lb + t).0 == Drain(decode, lb + t).0;
    } else {
      var (v, n) := decode(lb).value;
      ConsumesAt(decode, lb);
      DrainAppend(decode, lb[n..], t);
      DrainAppendValue(decode, b, t);
      PrependStep(s => Drain(decode, s), b, t, lb[n..], v);
    }
  }

  /** With the corrected loop, the values read do not depend on how the
      file was cut into chunks: they are the values drained from the whole
      text. */
  lemma {:induction false} LoadIsDrain(decode: RawDecode, chunks: seq<string>)
    requires Consumes(decode) && PrefixStable(decode)
    ensures Load(decode, chunks) == Drain(decode, Concat(chunks))
  {
    if |chunks| == 0 {
      EmptyUndecodable(decode);
    } else {
      var front := chunks[..|chunks| - 1];
      LoadIsDrain(decode, front);
      DrainAppend(decode, Concat(front), chunks[|chunks| - 1]);
    }
  }

  lemma ChunkingIrrelevant(decode: RawDecode, chunks1: seq<string>, chunks2: seq<string>)
    requires Consumes(decode) && PrefixStable(decode)
    requires Concat(chunks1) == Concat(chunks2)
    ensures Load(decode, chunks1) == Load(decode, chunks2)
  {
    LoadIsDrain(decode, chunks1);
    LoadIsDrain(decode, chunks2);
  }

  // ---------------------------------------------------------------------
  // Where the two loops part: a decoder of quoted text

  /** Text holding no quote character. */
  predicate QuoteFree(text: string) {
    forall i :: 0 <= i < |text| ==> text[i] != '"'
  }

  /** Where the first quote of `s` stands. */
  function Closing(s: string): (r: Option<nat>)
    ensures r.Some? ==> r.value < |s|
  {
    if |s| == 0 then None
    else if s[0] == '"' then Some(0)
    else match Closing(s[1..])
      case None => None
      case Some(k) => Some(k + 1)
  }

  lemma {:induction false} ClosingAfter(text: string, rest: string)
    requires QuoteFree(text)
    ensures Closing(text + ['"'] + rest) == Some(|text|)
  {
    if |text| > 0 {
      assert (text + ['"'] + rest)[1..] == text[1..] + ['"'] + rest;
      ClosingAfter(text[1..], rest);
    }
  }

  lemma {:induction false} ClosingAbsent(text: string)
    requires QuoteFree(text)
    ensures Closing(text) == None
  {
    if |text| > 0 {
      ClosingAbsent(text[1..]);
    }
  }

  lemma {:induction false} ClosingStable(s: string, t: string)
    requires Closing(s).Some?
    ensures Closing(s + t) == Closing(s)
  {
    assert (s + t)[0] == s[0];
    if s[0] != '"' {
      assert (s + t)[1..] == s[1..] + t;
      ClosingStable(s[1..], t);
    }
  }

  /** A decoder of `"`-quoted text without escapes: the value runs up to the
      first closing quote. */
  function QuotedText(s: string): (r: Option<(Value, nat)>)
    ensures r.Some? ==> 0 < r.value.1 <= |s|
  {
    if |s| >= 2 && s[0] == '"' then
      match Closing(s[1..])
      case None => None
      case Some(j) => Some((VUnicode(s[1..j + 1]), j + 2))
    else
      None
  }

  lemma QuotedTextStable(s: string, t: string)
    requires QuotedText(s).Some?
    ensures QuotedText(s + t) == QuotedText(s)
  {
    var j := Closing(s[1..]).value;
    assert (s + t)[1..] == s[1..] + t;
    ClosingStable(s[1..], t);
    assert (s + t)[1..j + 1] == s[1..j + 1];
  }

  lemma QuotedTextContract()
    ensures Consumes(QuotedText) && PrefixStable(QuotedText)
  {
    forall s, t
      ensures StableAt(QuotedText, s, t)
    {
      if QuotedText(s).Some? {
        QuotedTextStable(s, t);
      }
    }
  }

  /** A closed quotation decodes to its text, consuming both quotes. */
  lemma QuotedClosed(text: string)
    requires QuoteFree(text)
    ensures QuotedText(['"'] + text + ['"']) == Some((VUnicode(text), |text| + 2))
  {
    var s := ['"'] + text + ['"'];
    assert s[1..] == text + ['"'] + [];
    ClosingAfter(text, []);
    assert s[1..|text| + 1] == text;
  }

  /** A quotation still open does not decode. */
  lemma QuotedOpen(text: string)
    requires QuoteFree(text)
    ensures QuotedText(['"'] + text) == None
  {
    var s := ['"'] + text;
    assert s[1..] == text;
    ClosingAbsent(text);
  }

  /** The first chunk of the example: an open quotation ending in a blank. */
  function OpenChunk(x: string): string {
    ['"'] + x + [' ']
  }

  /** The second chunk of the example: the rest of the quotation. */
  function CloseChunk(y: string): string {
    y + ['"']
  }

  /** Text neither of whose ends is blank. */
  predicate TightEnds(x: string) {
    x == [] || (!IsBlank(x[0]) && !IsBlank(x[|x| - 1]))
  }

  lemma StripChunks(x: string, y: string)
    requires TightEnds(x) && TightEnds(y)
    ensures Strip(OpenChunk(x)) == ['"'] + x
    ensures Strip(CloseChunk(y)) == CloseChunk(y)
    ensures LStrip(OpenChunk(x)) == OpenChunk(x)
  {
    var c1 := OpenChunk(x);
    assert LStrip(c1) == c1;
    assert c1[..|c1| - 1] == ['"'] + x;
    assert RStrip(['"'] + x) == ['"'] + x;
    var c2 := CloseChunk(y);
    assert LStrip(c2) == c2;
    assert RStrip(c2) == c2;
  }

  lemma Regroup(a: string, b: string, c: string, d: string)
    ensures (a + b) + (c + d) == a + (b + c) + d
    ensures (a + b + c) + d == a + (b + c + d)
  {
  }

  /** A buffer that is exactly one value yields it and nothing else. */
  lemma DrainWhole(decode: RawDecode, buffer: string, v: Value)
    requires Consumes(decode) && LStrip(buffer) == buffer
    requires decode(buffer) == Some((v, |buffer|))
    ensures DrainAsWritten(decode, buffer) == ([v], [])
    ensures Drain(decode, buffer) == ([v], [])
  {
    EmptyUndecodable(decode);
    assert buffer[|buffer|..] == [];
    assert Strip([]) == [] && LStrip([]) == [];
    assert [v] + [] == [v];
  }

  /** A stripped buffer that does not decode is left as it is. */
  lemma DrainNothing(decode: RawDecode, buffer: string)
    requires Consumes(decode) && LStrip(buffer) == buffer && decode(buffer).None?
    ensures DrainAsWritten(decode, buffer) == ([], buffer)
    ensures Drain(decode, buffer) == ([], buffer)
  {
  }

  /** The two loops over one chunk and over two. */
  lemma LoadTwo(decode: RawDecode, c1: string, c2: string)
    requires Consumes(decode)
    ensures LoadAsWritten(decode, [c1]) == DrainAsWritten(decode, Strip(c1))
    ensures Load(decode, [c1]) == Drain(decode, c1)
    ensures LoadAsWritten(decode, [c1, c2]).0
         == LoadAsWritten(decode, [c1]).0 + DrainAsWritten(decode, LoadAsWritten(decode, [c1]).1 + Strip(c2)).0
    ensures Load(decode, [c1, c2]).0
         == Load(decode, [c1]).0 + Drain(decode, Load(decode, [c1]).1 + c2).0
  {
    EmptyUndecodable(decode);
    assert [c1, c2][..1] == [c1] && [c1][..0] == [];
    assert [] + Strip(c1) == Strip(c1) && [] + c1 == c1;
    assert [] + DrainAsWritten(decode, Strip(c1)).0 == DrainAsWritten(decode, Strip(c1)).0;
    assert [] + Drain(decode, c1).0 == Drain(decode, c1).0;
  }

  /** An open quotation ending in a blank. */
  lemma OpenQuoteFree(x: string)
    requires QuoteFree(x)
    ensures QuoteFree(x + [' '])
    ensures OpenChunk(x) == ['"'] + (x + [' '])
    ensures LStrip(OpenChunk(x)) == OpenChunk(x)
  {
  }

  /** A closed quotation, alone in the buffer, is handed out by both inner
      loops. */
  lemma DrainQuotation(text: string)
    requires QuoteFree(text)
    ensures Consumes(QuotedText)
    ensures DrainAsWritten(QuotedText, ['"'] + text + ['"']).0 == [VUnicode(text)]
    ensures Drain(QuotedText, ['"'] + text + ['"']).0 == [VUnicode(text)]
  {
    QuotedTextContract();
    var whole := ['"'] + text + ['"'];
    QuotedClosed(text);
    assert LStrip(whole) == whole;
    assert |whole| == |text| + 2;
    assert QuotedText(whole) == Some((VUnicode(text), |whole|));
    DrainWhole(QuotedText, whole, VUnicode(text));
  }

  /** The first chunk alone: the loop as written keeps it, stripped. */
  lemma AsWrittenFirst(x: string)
    requires QuoteFree(x) && TightEnds(x)
    ensures Consumes(QuotedText)
    ensures LoadAsWritten(QuotedText, [OpenChunk(x)]) == ([], ['"'] + x)
  {
    QuotedTextContract();
    StripChunks(x, []);
    LoadTwo(QuotedText, OpenChunk(x), []);
    QuotedOpen(x);
    assert LStrip(['"'] + x) == ['"'] + x;
    DrainNothing(QuotedText, ['"'] + x);
  }

  /** The loop as written glues the two halves of the quotation together
      without the blank between them. */
  lemma AsWrittenJoins(x: string, y: string)
    requires QuoteFree(x) && QuoteFree(y) && TightEnds(x) && TightEnds(y)
    ensures Consumes(QuotedText)
    ensures LoadAsWritten(QuotedText, [OpenChunk(x), CloseChunk(y)]).0 == [VUnicode(x + y)]
  {
    QuotedTextContract();
    StripChunks(x, y);
    LoadTwo(QuotedText, OpenChunk(x), CloseChunk(y));
    AsWrittenFirst(x);
    Regroup(['"'], x, y, ['"']);
    assert QuoteFree(x + y);
    DrainQuotation(x + y);
  }

  /** The first chunk alone: the corrected loop keeps all of it. */
  lemma CorrectedFirst(x: string)
    requires QuoteFree(x)
    ensures Consumes(QuotedText)
    ensures Load(QuotedText, [OpenChunk(x)]) == ([], OpenChunk(x))
  {
    QuotedTextContract();
    LoadTwo(QuotedText, OpenChunk(x), []);
    OpenQuoteFree(x);
    QuotedOpen(x + [' ']);
    DrainNothing(QuotedText, OpenChunk(x));
  }

  /** The two chunks together hold the whole quotation, blank included. */
  lemma JoinedChunks(x: string, y: string)
    requires QuoteFree(x) && QuoteFree(y)
    ensures OpenChunk(x) + CloseChunk(y) == ['"'] + (x + [' '] + y) + ['"']
    ensures QuoteFree(x + [' '] + y)
  {
    Regroup(['"'] + x, [' '], y, ['"']);
    Regroup(['"'], x, [' '], y);
  }

  /** The corrected loop keeps the blank. */
  lemma CorrectedKeeps(x: string, y: string)
    requires QuoteFree(x) && QuoteFree(y)
    ensures Consumes(QuotedText)
    ensures Load(QuotedText, [OpenChunk(x), CloseChunk(y)]).0 == [VUnicode(x + [' '] + y)]
  {
    QuotedTextContract();
    LoadTwo(QuotedText, OpenChunk(x), CloseChunk(y));
    CorrectedFirst(x);
    JoinedChunks(x, y);
    DrainQuotation(x + [' '] + y);
  }

  /** Whenever a chunk ends with a blank inside a quotation, the loop as
      written loses that blank, and the corrected loop does not. */
  lemma BlankLostAtChunkEnd(x: string, y: string)
    requires QuoteFree(x) && QuoteFree(y) && TightEnds(x) && TightEnds(y)
    ensures Consumes(QuotedText)
    ensures LoadAsWritten(QuotedText, [OpenChunk(x), CloseChunk(y)]).0 == [VUnicode(x + y)]
    ensures Load(QuotedText, [OpenChunk(x), CloseChunk(y)]).0 == [VUnicode(x + [' '] + y)]
    ensures LoadAsWritten(QuotedText, [OpenChunk(x), CloseChunk(y)])
         != Load(QuotedText, [OpenChunk(x), CloseChunk(y)])
  {
    AsWrittenJoins(x, y);
    CorrectedKeeps(x, y);
    assert |x + y| != |x + [' '] + y|;
  }

  // ---------------------------------------------------------------------
  // The file and the loop over it

  /** How `read(4096)` cuts a text: full chunks, then the remainder. */
  function Chunks(content: string): (r: seq<string>)
    ensures forall k :: 0 <= k < |r| ==> 0 < |r[k]| <= ReadSize
    ensures |content| == 0 <==> r == []
    decreases |content|
  {
    if |content| == 0 then []
    else if |content| <= ReadSize then [content]
    else [content[..ReadSize]] + Chunks(content[ReadSize..])
  }

  /** The chunks put back together are the text. */
  lemma {:induction false} ChunksConcat(content: string)
    ensures Concat(Chunks(content)) == content
    decreases |content|
  {
    if |content| > ReadSize {
      ChunksConcat(content[ReadSize..]);
      ConcatAppend([content[..ReadSize]], Chunks(content[ReadSize..]));
    }
  }

  /** The first chunk is what one `read` answers. */
  lemma ChunksFront(content: string)
    requires |content| > 0
    ensures Chunks(content) == [content[..Min(ReadSize, |content|)]] + Chunks(content[Min(ReadSize, |content|)..])
  {
    if |content| <= ReadSize {
      assert content[..|content|] == content && content[|content|..] == [];
    }
  }

  /** The reader's result, when the decoder lets chunks be cut anywhere. */
  lemma LoadChunks(decode: RawDecode, content: string)
    requires Consumes(decode) && PrefixStable(decode)
    ensures Load(decode, Chunks(content)).0 == Drain(decode, content).0
  {
    LoadIsDrain(decode, Chunks(content));
    ChunksConcat(content);
  }

  /** The corrected loop over chunks takes one more chunk. */
  lemma LoadSnoc(decode: RawDecode, read: seq<string>, line: string)
    requires Consumes(decode)
    ensures Load(decode, read + [line]).0
         == Load(decode, read).0 + Drain(decode, Load(decode, read).1 + line).0
    ensures Load(decode, read + [line]).1 == Drain(decode, Load(decode, read).1 + line).1
  {
    assert (read + [line])[..|read|] == read;
  }

  /** An open text file: what is still unread. */
  class TextFile {
    var unread: string

    constructor(content: string)
      ensures unread == content
    {
      unread := content;
    }

    /** `read(amt)`: up to `amt` characters, fewer only at the end. */
    method Read(amt: nat) returns (chunk: string)
      modifies this
      ensures chunk == old(unread)[..Min(amt, |old(unread)|)]
      ensures unread == old(unread)[Min(amt, |old(unread)|)..]
    {
      if |unread| <= amt {
        chunk := unread;
        unread := [];
      } else {
        chunk := unread[..amt];
        unread := unread[amt..];
      }
    }
  }

  /** One round of the inner loop, as `Drain` takes it. */
  lemma DrainStep(decode: RawDecode, buffer: string)
    requires Consumes(decode)
    ensures decode(LStrip(buffer)).None? ==> Drain(decode, buffer) == ([], LStrip(buffer))
    ensures decode(LStrip(buffer)).Some? ==>
      var (v, n) := decode(LStrip(buffer)).value;
      0 < n <= |LStrip(buffer)|
      && Drain(decode, buffer).0 == [v] + Drain(decode, LStrip(buffer)[n..]).0
      && Drain(decode, buffer).1 == Drain(decode, LStrip(buffer)[n..]).1
  {
    if decode(LStrip(buffer)).Some? {
      ConsumesAt(decode, LStrip(buffer));
    }
  }

  /** The inner loop of the corrected reader. */
  method DrainBuffer(decode: RawDecode, buffer: string) returns (values: seq<Value>, rest: string)
    requires Consumes(decode)
    ensures (values, rest) == Drain(decode, buffer)
  {
    values := [];
    rest := buffer;
    while true
      invariant Drain(decode, buffer).0 == values + Drain(decode, rest).0
      invariant Drain(decode, buffer).1 == Drain(decode, rest).1
      decreases |rest|
    {
      DrainStep(decode, rest);
      var stripped := LStrip(rest);
      var decoded := decode(stripped);
      if decoded.None? {
        assert Drain(decode, rest).0 == [] && values + [] == values;
        rest := stripped;
        return;
      }
      var (v, n) := decoded.value;
      ghost var later := Drain(decode, stripped[n..]).0;
      assert values + ([v] + later) == (values + [v]) + later;
      values := values + [v];
      rest := stripped[n..];
    }
  }

  /** The corrected reader over a whole file: reads 4096 characters at a
      time until `read` answers nothing, and collects every value decoded
      on the way. */
  method IterLoadUnenclosed(file: TextFile, decode: RawDecode) returns (values: seq<Value>)
    requires Consumes(decode)
    modifies file
    ensures values == Load(decode, Chunks(old(file.unread))).0
    ensures PrefixStable(decode) ==> values == Drain(decode, old(file.unread)).0
    ensures file.unread == []
  {
    ghost var content := file.unread;
    ghost var read: seq<string> := [];
    var buffer: string := [];
    values := [];
    while true
      invariant Chunks(content) == read + Chunks(file.unread)
      invariant Load(decode, read).0 == values && Load(decode, read).1 == buffer
      decreases |file.unread|
    {
      ghost var unread := file.unread;
      var line := file.Read(ReadSize);
      if |line| == 0 {
        assert read + [] == read;
        break;
      }
      ChunksFront(unread);
      AppendAssoc(read, [line], Chunks(file.unread));
      var more, rest := DrainBuffer(decode, buffer + line);
      LoadSnoc(decode, read, line);
      values := values + more;
      buffer := rest;
      read := read + [line];
    }
    if PrefixStable(decode) {
      LoadChunks(decode, content);
    }
  }
}
