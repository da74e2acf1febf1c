/**
 Reading request lines from a buffered stream, whatever the buffers.

 The stream is the list of buffers it will still hand out, none of them empty. After the last
 one it reports end of file, or an I/O error when it is broken. Decoding a line as text is a
 parameter: it gives no text for bytes that are not valid.
 */
module RequestLine {
  import opened Basics

  const MAX_LINE: nat := 65536
  const NEWLINE: byte := 10

  type Decoder = seq<byte> -> Option<string>

  datatype Verdict = Text(text: string) | NotText | TooLong | End | IoError

  // ---- Splitting at newlines ----

  /** `n` is the first newline from `i` on, or the length. */
  predicate FirstNewline(s: seq<byte>, i: nat, n: nat) {
    i <= n <= |s| && (n < |s| ==> s[n] == NEWLINE) && forall k :: i <= k < n ==> s[k] != NEWLINE
  }

  function Newline(s: seq<byte>, i: nat): (n: nat)
    requires i <= |s|
    ensures i <= n <= |s|
    decreases |s| - i
  {
    if i == |s| || s[i] == NEWLINE then i else Newline(s, i + 1)
  }

  lemma {:induction false} NewlineIsFirst(s: seq<byte>, i: nat)
    requires i <= |s|
    ensures FirstNewline(s, i, Newline(s, i))
    decreases |s| - i
  {
    if i < |s| && s[i] != NEWLINE { NewlineIsFirst(s, i + 1); }
  }

  /** Where the line at `i` ends: just past its newline, if it has one. */
  function LineEnd(s: seq<byte>, i: nat): (end: nat)
    requires i <= |s|
    ensures i <= end <= |s| && (i < |s| ==> i < end)
  {
    if Newline(s, i) < |s| then Newline(s, i) + 1 else |s|
  }

  function Decoded(line: seq<byte>, decode: Decoder): Verdict {
    match decode(line)
    case Some(text) => Text(text)
    case None => NotText
  }

  /** What reading one line at `i` must come to. */
  function Judge(s: seq<byte>, i: nat, broken: bool, decode: Decoder): Verdict
    requires i <= |s|
  {
    if Newline(s, i) - i > MAX_LINE then TooLong
    else if broken && Newline(s, i) == |s| then IoError
    else if i == |s| then End
    else Decoded(s[i..LineEnd(s, i)], decode)
  }

  /** A line that ends in a newline, with anything before and after it. */
  lemma JudgeTerminated(before: seq<byte>, line: seq<byte>, after: seq<byte>, broken: bool, decode: Decoder)
    requires 10 !in line
    ensures var s := before + line + [10] + after;
            && LineEnd(s, |before|) == |before| + |line| + 1
            && Judge(s, |before|, broken, decode) ==
               if |line| > 65536 then TooLong
               else match decode(line + [10]) case Some(text) => Text(text) case None => NotText
  {
    var s := before + line + [10] + after;
    NewlineIsFirst(s, |before|);
    assert s[|before| + |line|] == 10;
    assert forall k :: |before| <= k < |before| + |line| ==> s[k] == line[k - |before|];
    assert s[|before|..|before| + |line| + 1] == line + [10];
  }

  /** The last line of a stream without a newline: it is a line all the same, unless it is empty or the stream broke. */
  lemma JudgeUnterminated(before: seq<byte>, line: seq<byte>, broken: bool, decode: Decoder)
    requires 10 !in line
    ensures var s := before + line;
            && LineEnd(s, |before|) == |s|
            && Judge(s, |before|, broken, decode) ==
               if |line| > 65536 then TooLong
               else if broken then IoError
               else if line == [] then End
               else match decode(line) case Some(text) => Text(text) case None => NotText
  {
    var s := before + line;
    NewlineIsFirst(s, |before|);
    assert forall k :: |before| <= k < |s| ==> s[k] == line[k - |before|];
    assert s[|before|..|s|] == line;
  }

  predicate Closes(v: Verdict) { v.TooLong? || v.End? || v.IoError? }

  /** Every verdict of a connection from position `i` on, up to the one that ends it. */
  function Session(s: seq<byte>, i: nat, broken: bool, decode: Decoder): seq<Verdict>
    requires i <= |s|
    decreases |s| - i
  {
    var v := Judge(s, i, broken, decode);
    if Closes(v) then [v] else [v] + Session(s, LineEnd(s, i), broken, decode)
  }

  lemma NewlineAfter(s: seq<byte>, i: nat, k: nat)
    requires i <= k <= |s| && NEWLINE !in s[i..k]
    ensures Newline(s, i) == Newline(s, k)
  {
    NewlineIsFirst(s, i);
    NewlineIsFirst(s, k);
    forall j | i <= j < k ensures s[j] != NEWLINE { assert s[j] == s[i..k][j - i]; }
  }

  /** A newline found in the buffer at `k` is the line's; without one, the line goes on past the buffer. */
  lemma NewlineInBuffer(s: seq<byte>, k: nat, buffer: seq<byte>)
    requires k <= |s| && buffer <= s[k..]
    ensures Newline(buffer, 0) < |buffer| ==> Newline(s, k) == k + Newline(buffer, 0)
    ensures Newline(buffer, 0) == |buffer| ==> Newline(s, k) >= k + |buffer| && NEWLINE !in buffer
  {
    NewlineIsFirst(s, k);
    NewlineIsFirst(buffer, 0);
    assert forall j :: 0 <= j < |buffer| ==> buffer[j] == s[k..][j] == s[k + j];
    forall j | k <= j < k + Newline(buffer, 0) ensures s[j] != NEWLINE { assert s[j] == buffer[j - k]; }
  }

  // ---- The reader ----

  /** What one buffer does to a line. */
  datatype Turn = More | Ended | Exhausted | Broken | Overflow

  class LineReader {
    var buffers: seq<seq<byte>>
    const broken: bool
    ghost const stream: seq<byte>
    ghost var at: nat

    /** `at` bytes of the stream have been consumed. */
    ghost predicate Valid() reads this {
      [] !in buffers && at <= |stream| && Flatten(buffers) == stream[at..]
    }

    constructor (buffers: seq<seq<byte>>, broken: bool)
      requires [] !in buffers
      ensures Valid() && stream == Flatten(buffers) && at == 0 && this.broken == broken
    {
      this.buffers, this.broken, stream, at := buffers, broken, Flatten(buffers), 0;
    }

    /** What is buffered: nothing at the end, an error once a broken stream runs out. */
    method FillBuf() returns (available: Option<seq<byte>>)
      requires Valid()
      ensures available.None? <==> broken && at == |stream|
      ensures available.Some? ==> available.value <= stream[at..] && (available.value == [] <==> at == |stream|)
      ensures available.Some? && available.value != [] ==> buffers != [] && buffers[0] == available.value
    {
      if buffers == [] {
        return if broken then None else Some([]);
      }
      FlattenCons(buffers[0], buffers[1..]);
      assert buffers == [buffers[0]] + buffers[1..];
      assert buffers[0] in buffers;
      available := Some(buffers[0]);
    }

    method Consume(n: nat)
      requires Valid() && buffers != [] && n <= |buffers[0]|
      modifies this`buffers, this`at
      ensures Valid() && at == old(at) + n
    {
      var head, tail := buffers[0], buffers[1..];
      assert buffers == [head] + tail;
      FlattenCons(head, tail);
      if n == |head| {
        buffers := tail;
      } else {
        buffers := [head[n..]] + tail;
        FlattenCons(head[n..], tail);
      }
      assert stream[at..][n..] == head[n..] + Flatten(tail);
      at := at + n;
    }

    /** One turn of the loop: what the next buffer adds to a line that started at `from`. */
    method Gather(line0: seq<byte>, ghost from: nat) returns (line: seq<byte>, turn: Turn)
      requires Valid() && from <= at && line0 == stream[from..at] && NEWLINE !in line0 && |line0| <= MAX_LINE
      modifies this`buffers, this`at
      ensures Valid() && old(at) <= at
      ensures match turn
              case More => at > old(at) && line == stream[from..at] && NEWLINE !in line && |line| <= MAX_LINE
              case Ended => line == stream[from..at] && Newline(stream, from) == at - 1 && at - 1 - from <= MAX_LINE
              case Exhausted => !broken && line == line0 && at == old(at) == |stream|
              case Broken => broken && line == line0 && at == old(at) == |stream|
              case Overflow => Newline(stream, from) - from > MAX_LINE
    {
      NewlineAfter(stream, from, at);
      line := line0;
      var available := FillBuf();
      if available.None? {
        return line, Broken;
      }
      if available.value == [] {
        return line, Exhausted;
      }
      var newline, take := Find(available.value);
      NewlineInBuffer(stream, at, available.value);
      if |line| + (if newline then take - 1 else take) > MAX_LINE {
        Consume(take);
        return line, Overflow;
      }
      assert available.value[..take] == stream[at..at + take];
      line := line + available.value[..take];
      Consume(take);
      turn := if newline then Ended else More;
    }

    /** Collect one line. The verdict is that of splitting the stream at newlines, wherever its buffers end. */
    method ReadRequestLine(decode: Decoder) returns (v: Verdict, line: seq<byte>)
      requires Valid()
      modifies this`buffers, this`at
      ensures Valid() && v == Judge(stream, old(at), broken, decode)
      ensures !Closes(v) ==> at == LineEnd(stream, old(at)) && line == stream[old(at)..at]
    {
      line := [];
      var turn := More;
      while turn.More?
        invariant Valid() && old(at) <= at && turn.More? && line == stream[old(at)..at]
        invariant NEWLINE !in line && |line| <= MAX_LINE
        decreases |stream| - at
      {
        line, turn := Gather(line, old(at));
        match turn {
          case More =>
          case Ended => break;
          case Broken =>
            NewlineAfter(stream, old(at), at);
            return IoError, line;
          case Overflow => return TooLong, line;
          case Exhausted =>
            NewlineAfter(stream, old(at), at);
            if line == [] {
              return End, line;
            }
            break;
        }
      }
      v := Decoded(line, decode);
    }

    /** A whole connection's requests. */
    method ReadSession(decode: Decoder) returns (verdicts: seq<Verdict>)
      requires Valid()
      modifies this`buffers, this`at
      ensures verdicts == Session(stream, old(at), broken, decode)
    {
      verdicts := [];
      ghost var starts: seq<nat> := [at];
      var closed := false;
      while !closed
        invariant Valid() && |starts| == |verdicts| + 1 && starts[0] == old(at)
        invariant forall k :: 0 <= k < |verdicts| ==> ReadAt(stream, broken, decode, starts, verdicts, k)
        invariant if closed then verdicts != [] && Closes(verdicts[|verdicts| - 1]) else starts[|verdicts|] == at
        invariant forall k :: 0 <= k < |verdicts| && Closes(verdicts[k]) ==> closed && k == |verdicts| - 1
        decreases if closed then 0 else |stream| - at + 1
      {
        ghost var before: seq<nat>, soFar := starts, verdicts;
        var v, line := ReadRequestLine(decode);
        verdicts := verdicts + [v];
        closed := Closes(v);
        starts := starts + [if closed then starts[|starts| - 1] else at];
        forall k | 0 <= k < |verdicts| ensures ReadAt(stream, broken, decode, starts, verdicts, k) {
          assert k < |soFar| ==> ReadAt(stream, broken, decode, before, soFar, k);
        }
      }
      SessionOf(stream, broken, decode, starts, verdicts, 0);
    }
  }

  /** Verdict `k` is that of the line at its start, and the next line starts where that one ends. */
  ghost predicate ReadAt(s: seq<byte>, broken: bool, decode: Decoder, starts: seq<nat>, verdicts: seq<Verdict>, k: nat)
    requires k < |verdicts| && |starts| == |verdicts| + 1
  {
    && starts[k] <= |s| && verdicts[k] == Judge(s, starts[k], broken, decode)
    && (!Closes(verdicts[k]) ==> starts[k + 1] == LineEnd(s, starts[k]))
  }

  lemma {:induction false} SessionOf(s: seq<byte>, broken: bool, decode: Decoder, starts: seq<nat>,
                                     verdicts: seq<Verdict>, k: nat)
    requires k < |verdicts| && |starts| == |verdicts| + 1
    requires forall j :: 0 <= j < |verdicts| ==> ReadAt(s, broken, decode, starts, verdicts, j)
    requires forall j :: 0 <= j < |verdicts| ==> (Closes(verdicts[j]) <==> j == |verdicts| - 1)
    ensures starts[k] <= |s| && verdicts[k..] == Session(s, starts[k], broken, decode)
    decreases |verdicts| - k
  {
    assert ReadAt(s, broken, decode, starts, verdicts, k);
    if k < |verdicts| - 1 {
      SessionOf(s, broken, decode, starts, verdicts, k + 1);
      assert verdicts[k..] == [verdicts[k]] + verdicts[k + 1..];
    } else {
      assert verdicts[k..] == [verdicts[k]];
    }
  }

  /** How much of `s` belongs to the line, and whether a newline ends it there. */
  method Find(s: seq<byte>) returns (newline: bool, take: nat)
    ensures newline <==> Newline(s, 0) < |s|
    ensures take == if newline then Newline(s, 0) + 1 else |s|
  {
    for i := 0 to |s|
      invariant Newline(s, 0) == Newline(s, i)
    {
      if s[i] == NEWLINE {
        return true, i + 1;
      }
    }
    return false, |s|;
  }

  // ---- Independence of buffering, and the way back ----

  /** Two streams that carry the same bytes are read alike, however they are cut. */
  method ReadBoth(left: seq<seq<byte>>, right: seq<seq<byte>>, broken: bool, decode: Decoder)
    returns (fromLeft: seq<Verdict>, fromRight: seq<Verdict>)
    requires [] !in left && [] !in right && Flatten(left) == Flatten(right)
    ensures fromLeft == fromRight == Session(Flatten(left), 0, broken, decode)
  {
    var a := new LineReader(left, broken);
    fromLeft := a.ReadSession(decode);
    var b := new LineReader(right, broken);
    fromRight := b.ReadSession(decode);
  }

  predicate Sendable(lines: seq<seq<byte>>) {
    forall line <- lines :: NEWLINE !in line && |line| <= MAX_LINE
  }

  /** The first `n` requests, each followed by a newline. */
  function Sent(lines: seq<seq<byte>>, n: nat): seq<byte>
    requires n <= |lines|
  {
    if n == 0 then [] else Sent(lines, n - 1) + lines[n - 1] + [NEWLINE]
  }

  function Received(lines: seq<seq<byte>>, n: nat, decode: Decoder): seq<Verdict>
    requires n <= |lines|
    decreases |lines| - n
  {
    if n == |lines| then [End] else [Decoded(lines[n] + [NEWLINE], decode)] + Received(lines, n + 1, decode)
  }

  lemma {:induction false} SentPrefix(lines: seq<seq<byte>>, n: nat, m: nat)
    requires n <= m <= |lines|
    ensures Sent(lines, n) <= Sent(lines, m)
    decreases m
  {
    if n < m { SentPrefix(lines, n, m - 1); }
  }

  /** Line `n` of what was sent is request `n`. */
  lemma SentLine(lines: seq<seq<byte>>, n: nat)
    requires Sendable(lines) && n < |lines|
    ensures var s := Sent(lines, |lines|);
            var i, end := |Sent(lines, n)|, |Sent(lines, n + 1)|;
            i < end <= |s| && Newline(s, i) == end - 1 && end - 1 - i <= MAX_LINE && s[i..end] == lines[n] + [NEWLINE]
  {
    var s := Sent(lines, |lines|);
    var i, end := |Sent(lines, n)|, |Sent(lines, n + 1)|;
    SentPrefix(lines, n + 1, |lines|);
    assert s[..end] == Sent(lines, n) + lines[n] + [NEWLINE];
    assert s[i..end] == s[..end][i..] == lines[n] + [NEWLINE];
    assert lines[n] in lines;
    NewlineIsFirst(s, i);
    forall k | i <= k < end - 1 ensures s[k] != NEWLINE { assert s[k] == s[i..end][k - i] == lines[n][k - i]; }
    assert s[end - 1] == s[i..end][end - 1 - i];
  }

  ghost predicate LinesAt(s: seq<byte>, lines: seq<seq<byte>>, starts: seq<nat>, decode: Decoder) {
    && |starts| == |lines| + 1 && starts[|lines|] == |s|
    && forall n :: 0 <= n < |lines| ==> LineAt(s, lines, starts, n, decode)
  }

  /** Line `n` is judged as it was sent, and ends where the next one starts. */
  predicate LineAt(s: seq<byte>, lines: seq<seq<byte>>, starts: seq<nat>, n: nat, decode: Decoder)
    requires n < |lines| && |starts| == |lines| + 1
  {
    && starts[n] <= |s| && starts[n + 1] <= |s| && LineEnd(s, starts[n]) == starts[n + 1]
    && Judge(s, starts[n], false, decode) == Decoded(lines[n] + [NEWLINE], decode)
  }

  lemma {:induction false} LinesAreReceived(s: seq<byte>, lines: seq<seq<byte>>, starts: seq<nat>,
                                            n: nat, decode: Decoder)
    requires LinesAt(s, lines, starts, decode) && n <= |lines| && starts[n] <= |s|
    ensures Session(s, starts[n], false, decode) == Received(lines, n, decode)
    decreases |lines| - n
  {
    if n < |lines| {
      assert LineAt(s, lines, starts, n, decode);
      LinesAreReceived(s, lines, starts, n + 1, decode);
    }
  }

  function Starts(lines: seq<seq<byte>>): seq<nat> {
    seq(|lines| + 1, n requires 0 <= n <= |lines| => |Sent(lines, n)|)
  }

  lemma JudgedAs(s: seq<byte>, i: nat, end: nat, line: seq<byte>, decode: Decoder)
    requires i < end <= |s| && Newline(s, i) == end - 1 && end - 1 - i <= MAX_LINE && s[i..end] == line
    ensures LineEnd(s, i) == end && Judge(s, i, false, decode) == Decoded(line, decode)
  {
  }

  lemma SentLineAt(lines: seq<seq<byte>>, n: nat, decode: Decoder)
    requires Sendable(lines) && n < |lines|
    ensures LineAt(Sent(lines, |lines|), lines, Starts(lines), n, decode)
  {
    SentLine(lines, n);
    var starts := Starts(lines);
    JudgedAs(Sent(lines, |lines|), starts[n], starts[n + 1], lines[n] + [NEWLINE], decode);
  }

  lemma SentLinesAt(lines: seq<seq<byte>>, decode: Decoder)
    requires Sendable(lines)
    ensures LinesAt(Sent(lines, |lines|), lines, Starts(lines), decode)
  {
    forall n | 0 <= n < |lines| ensures LineAt(Sent(lines, |lines|), lines, Starts(lines), n, decode) {
      SentLineAt(lines, n, decode);
    }
  }

  /** Requests up to the limit, sent one per line, arrive one by one and in order, undecodable ones included. */
  lemma SentIsReceived(lines: seq<seq<byte>>, decode: Decoder)
    requires Sendable(lines)
    ensures Session(Sent(lines, |lines|), 0, false, decode) == Received(lines, 0, decode)
  {
    SentLinesAt(lines, decode);
    LinesAreReceived(Sent(lines, |lines|), lines, Starts(lines), 0, decode);
  }
}
