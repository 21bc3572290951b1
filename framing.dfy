/** The line framing of the protocol: what `send` and `sendArray` write, and
    how the `data` handler cuts a delivery into lines. */
module Framing {
  import opened Json

  /** What `send(m)` writes: `JSON.stringify(m) + "\n"`. */
  function Frame(m: JsValue): string {
    Render(m) + "\n"
  }

  /** The payload `sendArray(ms)` writes: the frames of `ms`, in order. */
  function Batch(ms: seq<JsValue>): string
    decreases |ms|
  {
    if ms == [] then "" else Frame(ms[0]) + Batch(ms[1..])
  }

  /** The encodings of `ms`, one per message. */
  function Renders(ms: seq<JsValue>): (r: seq<string>)
    ensures |r| == |ms|
    ensures forall i :: 0 <= i < |ms| ==> r[i] == Render(ms[i])
    decreases |ms|
  {
    if ms == [] then [] else [Render(ms[0])] + Renders(ms[1..])
  }

  lemma {:induction false} BatchSnoc(ms: seq<JsValue>, m: JsValue)
    ensures Batch(ms + [m]) == Batch(ms) + Frame(m)
    decreases |ms|
  {
    if ms != [] {
      assert (ms + [m])[1..] == ms[1..] + [m];
      BatchSnoc(ms[1..], m);
    }
  }

  /** The string concatenation loop of `sendArray`. */
  method BuildPayload(dataArray: seq<JsValue>) returns (dataStr: string)
    ensures dataStr == Batch(dataArray)
  {
    dataStr := "";
    var i := 0;
    while i < |dataArray|
      invariant 0 <= i <= |dataArray|
      invariant dataStr == Batch(dataArray[..i])
    {
      BatchSnoc(dataArray[..i], dataArray[i]);
      assert dataArray[..i + 1] == dataArray[..i] + [dataArray[i]];
      dataStr := dataStr + Render(dataArray[i]) + "\n";
      i := i + 1;
    }
    assert dataArray[..i] == dataArray;
  }

  /** `s.split(/(?:\r\n|\r|\n)/)`: the pieces between line breaks, where
      CR LF counts as one break and a lone CR or LF as one each; empty
      pieces are kept. `SplitLinesUnbroken` and `SplitLinesBreak` state
      this piece by piece. */
  function SplitLines(s: string): (r: seq<string>)
    ensures |r| > 0
    ensures forall i :: 0 <= i < |r| ==> NoLineBreak(r[i])
    decreases |s|
  {
    if s == [] then [""]
    else if s[0] == '\r' && |s| > 1 && s[1] == '\n' then [""] + SplitLines(s[2..])
    else if s[0] == '\r' || s[0] == '\n' then [""] + SplitLines(s[1..])
    else
      var rest := SplitLines(s[1..]);
      [[s[0]] + rest[0]] + rest[1..]
  }

  /** The lines the handler decodes: the pieces that are not `''`. */
  function NonEmpty(lines: seq<string>): (r: seq<string>)
    ensures forall i :: 0 <= i < |r| ==> r[i] != "" && r[i] in lines
    decreases |lines|
  {
    if lines == [] then []
    else if lines[0] == "" then NonEmpty(lines[1..])
    else [lines[0]] + NonEmpty(lines[1..])
  }

  /** The filter keeps a non-empty line and drops an empty one ... */
  lemma NonEmptyOne(line: string)
    ensures NonEmpty([line]) == if line == "" then [] else [line]
  {
    assert [line][1..] == [];
  }

  /** ... and filters the parts of a list separately, keeping their order. */
  lemma {:induction false} NonEmptyAppend(a: seq<string>, b: seq<string>)
    ensures NonEmpty(a + b) == NonEmpty(a) + NonEmpty(b)
    decreases |a|
  {
    if a == [] {
      assert a + b == b;
    } else {
      assert (a + b)[0] == a[0] && (a + b)[1..] == a[1..] + b;
      NonEmptyAppend(a[1..], b);
    }
  }

  /** A text without a line break is one piece. */
  lemma {:induction false} SplitLinesUnbroken(line: string)
    requires NoLineBreak(line)
    ensures SplitLines(line) == [line]
    decreases |line|
  {
    if line != [] {
      SplitLinesUnbroken(line[1..]);
      assert [line[0]] + line[1..] == line;
    }
  }

  /** A break-free text followed by a break is cut off as one piece: the
      break is CR LF, LF, or a CR that no LF follows. */
  lemma {:induction false} SplitLinesBreak(line: string, brk: string, rest: string)
    requires NoLineBreak(line)
    requires brk == "\r\n" || brk == "\n" || (brk == "\r" && (rest == [] || rest[0] != '\n'))
    ensures SplitLines(line + brk + rest) == [line] + SplitLines(rest)
    decreases |line|
  {
    var s := line + brk + rest;
    if line == [] {
      assert s == brk + rest;
      if brk == "\r\n" {
        assert s[0] == '\r' && s[1] == '\n' && s[2..] == rest;
      } else {
        assert s[0] == brk[0] && s[1..] == rest;
      }
    } else {
      assert s[0] == line[0] && s[1..] == line[1..] + brk + rest;
      SplitLinesBreak(line[1..], brk, rest);
      assert [line[0]] + line[1..] == line;
    }
  }

  /** Splitting a `sendArray` payload gives the encodings in order, then the
      empty piece after the final LF. */
  lemma {:induction false} SplitBatch(ms: seq<JsValue>)
    ensures SplitLines(Batch(ms)) == Renders(ms) + [""]
    decreases |ms|
  {
    if ms != [] {
      RenderNoLineBreak(ms[0]);
      SplitLinesBreak(Render(ms[0]), "\n", Batch(ms[1..]));
      assert Batch(ms) == Render(ms[0]) + "\n" + Batch(ms[1..]);
      SplitBatch(ms[1..]);
    }
  }

  /** The receiving side of the framing: a payload written by `sendArray`,
      split on line breaks with the empty pieces dropped, yields exactly the
      encodings of the batched messages, in the order given. */
  lemma {:induction false} BatchRoundTrip(ms: seq<JsValue>)
    ensures NonEmpty(SplitLines(Batch(ms))) == Renders(ms)
    decreases |ms|
  {
    SplitBatch(ms);
    if ms != [] {
      SplitBatch(ms[1..]);
      assert Renders(ms) + [""] == [Render(ms[0])] + (Renders(ms[1..]) + [""]);
      BatchRoundTrip(ms[1..]);
    }
  }
}
