/** Optional values and outcomes that carry an exception's text. */
module Wrappers {
  datatype Option<T> = None | Some(value: T)

  /** The value of a computation, or the `str(e)` of the exception `e` it raised. */
  datatype Result<T> = Ok(value: T) | Err(error: string)
}

/** The shapes an agent reply can take, and how the integration layer turns
    one into text (agent/health_agent_integration.py, lines 51-56, 91-96 and
    the chunk loops at 139-147 and 190-198). */
module Replies {
  import opened Wrappers

  /** The value of an attribute: a Python `str`, or some other object, known by
      its type name and its `str()` form. `Other` stands for an object whose
      type does not accept `str + x` through `__radd__`; one that does (such as
      `collections.UserString`) is not modelled. */
  datatype Field = Str(s: string) | Other(typeName: string, shown: string)

  /** `str(value)` */
  function Shown(f: Field): string {
    match f
    case Str(s) => s
    case Other(_, shown) => shown
  }

  /** An object returned by an agent: it may have a `content` attribute, a
      `text` attribute, both or neither; `shown` is `str()` of the whole object.
      A bare Python string has neither attribute and is its own `str()`. */
  datatype Reply = Reply(content: Option<Field>, text: Option<Field>, shown: string)

  function BareString(s: string): Reply {
    Reply(None, None, s)
  }

  /** What one blocking agent call yields: a reply, or the text of the exception
      it raised. */
  datatype CallOutcome = Replied(reply: Reply) | Raised(error: string)

  /** What a streaming agent call yields: the chunks produced, in order, and then
      either the normal end of the stream or an exception with its text. */
  datatype Stream = Stream(chunks: seq<Reply>, raised: Option<string>)

  /** The text of a reply: `str(content)` if the reply has `content`, else
      `str(text)` if it has `text`, else `str(reply)`. */
  function ExtractText(r: Reply): (t: string)
    ensures r.content.Some? ==> t == Shown(r.content.value)
    ensures r.content.None? && r.text.Some? ==> t == Shown(r.text.value)
    ensures r.content.None? && r.text.None? ==> t == r.shown
  {
    if r.content.Some? then Shown(r.content.value)
    else if r.text.Some? then Shown(r.text.value)
    else r.shown
  }

  /** `content` wins over `text` and over the object's own string form, whatever
      they hold; `text` wins over the string form; and a reply without either
      attribute is read through `str()`, which leaves a bare string as it is. */
  lemma ExtractionPrecedence(r: Reply)
    ensures r.content.Some? ==>
      forall t, s :: ExtractText(Reply(r.content, t, s)) == Shown(r.content.value)
    ensures r.content.None? && r.text.Some? ==>
      forall s :: ExtractText(Reply(None, r.text, s)) == Shown(r.text.value)
    ensures forall s :: ExtractText(BareString(s)) == s
  {
  }

  /** Python's message for `str + x` when `x` is not a `str`. */
  function ConcatError(typeName: string): string {
    "can only concatenate str (not \"" + typeName + "\") to str"
  }

  /** The piece `+=` appends for one streamed chunk, or the `TypeError` it raises
      when the chosen attribute is not a string. Unlike `ExtractText`, the
      `content` and `text` attributes are appended without `str()`. */
  function ChunkPiece(c: Reply): (r: Result<string>)
    ensures c.content.Some? ==>
      (r.Ok? <==> c.content.value.Str?) && (r.Ok? ==> r.value == Shown(c.content.value))
    ensures c.content.None? && c.text.Some? ==>
      (r.Ok? <==> c.text.value.Str?) && (r.Ok? ==> r.value == Shown(c.text.value))
    ensures c.content.None? && c.text.None? ==> r == Ok(c.shown)
    ensures c.content.Some? && c.content.value.Other? ==>
      r == Err(ConcatError(c.content.value.typeName))
    ensures c.content.None? && c.text.Some? && c.text.value.Other? ==>
      r == Err(ConcatError(c.text.value.typeName))
    ensures r.Ok? ==> r.value == ExtractText(c)
  {
    var f := if c.content.Some? then c.content else c.text;
    match f
    case Some(Str(s)) => Ok(s)
    case Some(Other(t, _)) => Err(ConcatError(t))
    case None => Ok(c.shown)
  }

  /** The accumulated text after the given chunks, or the first `TypeError`. */
  function Accumulated(cs: seq<Reply>): (r: Result<string>)
    ensures cs == [] ==> r == Ok("")
    ensures r.Err? ==> exists k :: 0 <= k < |cs| && r == ChunkPiece(cs[k])
  {
    if cs == [] then Ok("")
    else
      match Accumulated(cs[..|cs| - 1])
      case Err(e) => Err(e)
      case Ok(t) =>
        match ChunkPiece(cs[|cs| - 1])
        case Err(e) => Err(e)
        case Ok(p) => Ok(t + p)
  }

  /** Concatenation of the extracted texts of the chunks, in stream order. */
  function ConcatTexts(cs: seq<Reply>): string
  {
    if cs == [] then "" else ConcatTexts(cs[..|cs| - 1]) + ExtractText(cs[|cs| - 1])
  }

  /** The loop over a whole stream: the accumulated text, or the exception that
      ended it, whether raised by `+=` or by the stream itself. */
  function StreamResult(st: Stream): (r: Result<string>)
    ensures st.raised.Some? ==> r.Err?
    ensures Accumulated(st.chunks).Err? ==> r == Accumulated(st.chunks)
    ensures Accumulated(st.chunks).Ok? && st.raised.Some? ==> r == Err(st.raised.value)
    ensures r.Ok? ==> r.value == ConcatTexts(st.chunks)
    ensures r.Ok? <==> st.raised.None? && forall i :: 0 <= i < |st.chunks| ==> ChunkPiece(st.chunks[i]).Ok?
    ensures r.Err? && st.raised.None? ==>
      exists k :: 0 <= k < |st.chunks| && r == ChunkPiece(st.chunks[k])
  {
    AccumulatedOk(st.chunks);
    match Accumulated(st.chunks)
    case Err(e) => Err(e)
    case Ok(t) => if st.raised.Some? then Err(st.raised.value) else Ok(t)
  }

  /** Accumulating a stream in two parts is accumulating the first part and then
      appending the text of the second, unless the first part already failed. */
  lemma {:induction false} AccumulatedAppend(a: seq<Reply>, b: seq<Reply>)
    ensures Accumulated(a + b) ==
      match Accumulated(a)
      case Err(e) => Err(e)
      case Ok(t) =>
        match Accumulated(b)
        case Err(e) => Err(e)
        case Ok(u) => Ok(t + u)
    decreases |b|
  {
    if b == [] {
      assert a + b == a;
      match Accumulated(a)
      case Err(e) =>
      case Ok(t) => assert t + "" == t;
    } else {
      var b0 := b[..|b| - 1];
      assert (a + b)[..|a + b| - 1] == a + b0;
      assert (a + b)[|a + b| - 1] == b[|b| - 1];
      AccumulatedAppend(a, b0);
      match Accumulated(a)
      case Err(e) =>
      case Ok(t) =>
        match Accumulated(b0)
        case Err(e) =>
        case Ok(u) =>
          match ChunkPiece(b[|b| - 1])
          case Err(e) =>
          case Ok(p) => assert t + u + p == t + (u + p);
    }
  }

  /** Once a prefix of the chunks has failed, the whole accumulation reports
      that failure: the `+=` loop can stop at the first error. */
  lemma ErrorEndsAccumulation(cs: seq<Reply>, n: nat)
    requires n <= |cs| && Accumulated(cs[..n]).Err?
    ensures Accumulated(cs) == Accumulated(cs[..n])
  {
    var a, b := cs[..n], cs[n..];
    assert forall i :: 0 <= i < |cs| ==> (a + b)[i] == cs[i];
    assert a + b == cs;
    AccumulatedAppend(a, b);
  }

  /** The accumulation succeeds exactly when every chunk's piece is a string, and
      then it is the in-order concatenation of each chunk's extracted text. */
  lemma {:induction false} AccumulatedOk(cs: seq<Reply>)
    ensures Accumulated(cs).Ok? <==> forall i :: 0 <= i < |cs| ==> ChunkPiece(cs[i]).Ok?
    ensures Accumulated(cs).Ok? ==> Accumulated(cs).value == ConcatTexts(cs)
  {
    if cs != [] {
      var init := cs[..|cs| - 1];
      AccumulatedOk(init);
      assert forall i :: 0 <= i < |init| ==> init[i] == cs[i];
    }
  }

  /** When chunk `k` is the first whose piece fails, its `TypeError` is what the
      accumulation reports. */
  lemma {:induction false} FirstFailureReported(cs: seq<Reply>, k: nat)
    requires k < |cs| && ChunkPiece(cs[k]).Err?
    requires forall i :: 0 <= i < k ==> ChunkPiece(cs[i]).Ok?
    ensures Accumulated(cs) == ChunkPiece(cs[k])
  {
    var init := cs[..|cs| - 1];
    if k == |cs| - 1 {
      AccumulatedOk(init);
      assert forall i :: 0 <= i < |init| ==> ChunkPiece(init[i]).Ok? by {
        forall i | 0 <= i < |init| ensures ChunkPiece(init[i]).Ok? { assert init[i] == cs[i]; }
      }
    } else {
      assert init[k] == cs[k];
      assert forall i :: 0 <= i < k ==> ChunkPiece(init[i]).Ok? by {
        forall i | 0 <= i < k ensures ChunkPiece(init[i]).Ok? { assert init[i] == cs[i]; }
      }
      FirstFailureReported(init, k);
    }
  }
}
