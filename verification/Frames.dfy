/** The agent's byte codec: length-prefixed frames and the nine-byte marker that restores alignment. */
module Frames {
  import opened Basics

  const MAX_PAYLOAD_LEN: nat := 1048576
  const HEADER_LEN: nat := 9
  const SYNC: seq<byte> := [0xff, 0xff, 0xff, 0xff, 0xff, 0x76, 0x6d, 0x6f, 0x6e]

  type u32 = n: int | 0 <= n < 0x1_0000_0000

  datatype Frame = Frame(ty: byte, id: u32, payload: seq<byte>)

  // ---- Layout ----

  function FromLittleEndian(b: seq<byte>): u32
    requires |b| == 4
  {
    var b0: int, b1: int, b2: int, b3: int := b[0], b[1], b[2], b[3];
    b0 + 0x100 * (b1 + 0x100 * (b2 + 0x100 * b3))
  }

  function LittleEndian(n: u32): (b: seq<byte>)
    ensures |b| == 4 && FromLittleEndian(b) == n
  {
    var n1 := n / 0x100;
    var n2 := n1 / 0x100;
    var n3 := n2 / 0x100;
    assert n == 0x100 * n1 + n % 0x100 && n1 == 0x100 * n2 + n1 % 0x100 && n2 == 0x100 * n3 + n2 % 0x100;
    [n % 0x100, n1 % 0x100, n2 % 0x100, n3]
  }

  function Header(len: nat, ty: byte, id: u32): seq<byte>
    requires len <= MAX_PAYLOAD_LEN
  {
    LittleEndian(len) + [ty] + LittleEndian(id)
  }

  function Encode(f: Frame): seq<byte>
    requires |f.payload| <= MAX_PAYLOAD_LEN
  {
    Header(|f.payload|, f.ty, f.id) + f.payload
  }

  function Weighted(a: int, b: int, c: int, d: int): int { a + 0x100 * b + 0x1_0000 * c + 0x100_0000 * d }

  /** The bytes of a frame: length, type and stream id, least significant byte first, then the payload. */
  lemma EncodedLayout(f: Frame)
    requires |f.payload| <= MAX_PAYLOAD_LEN
    ensures var s, len := Encode(f), |f.payload|;
            && |s| == 9 + len && s[9..] == f.payload && s[4] == f.ty
            && len == Weighted(s[0], s[1], s[2], s[3]) && f.id == Weighted(s[5], s[6], s[7], s[8])
  {
    var s := Encode(f);
    assert s[..4] == LittleEndian(|f.payload|) && s[5..9] == LittleEndian(f.id) && s[9..] == f.payload;
  }

  // ---- The marker ----

  predicate SyncAt(s: seq<byte>, i: nat) {
    i + HEADER_LEN <= |s| && s[i..i + HEADER_LEN] == SYNC
  }

  predicate MarkerFree(s: seq<byte>) {
    forall i :: 0 <= i < |s| ==> !SyncAt(s, i)
  }

  /** Where the first marker starts. */
  function FirstSync(s: seq<byte>): (at: Option<nat>)
    ensures at.Some? ==> SyncAt(s, at.value) && forall i :: 0 <= i < at.value ==> !SyncAt(s, i)
    ensures at.None? ==> MarkerFree(s)
  {
    if |s| < HEADER_LEN then None
    else if s[..HEADER_LEN] == SYNC then Some(0)
    else
      assert forall i :: 0 < i < |s| && SyncAt(s, i) ==> SyncAt(s[1..], i - 1) by {
        forall i | 0 < i < |s| && SyncAt(s, i) ensures SyncAt(s[1..], i - 1) {
          assert s[1..][i - 1..i - 1 + HEADER_LEN] == s[i..i + HEADER_LEN];
        }
      }
      var rest := FirstSync(s[1..]);
      if rest.None? then None
      else
        assert s[rest.value + 1..rest.value + 1 + HEADER_LEN] == s[1..][rest.value..rest.value + HEADER_LEN];
        Some(rest.value + 1)
  }

  predicate FirstAt(s: seq<byte>, k: nat) {
    SyncAt(s, k) && forall i :: 0 <= i < k ==> !SyncAt(s, i)
  }

  lemma FirstAtIsFirst(s: seq<byte>, k: nat)
    requires FirstAt(s, k)
    ensures FirstSync(s) == Some(k)
  {
  }

  /** No marker ends within the first `n` bytes. */
  predicate NoneBefore(s: seq<byte>, n: nat) {
    forall i {:trigger SyncAt(s, i)} :: 0 <= i && i + HEADER_LEN <= n ==> !SyncAt(s, i)
  }

  lemma SlideSound(s: seq<byte>, n: nat)
    requires n < |s|
    ensures Last(Last(s[..n], HEADER_LEN) + [s[n]], HEADER_LEN) == Last(s[..n + 1], HEADER_LEN)
  {
    LastOfAppend(s[..n], [s[n]], HEADER_LEN);
    assert s[..n] + [s[n]] == s[..n + 1];
  }

  lemma EndsHere(s: seq<byte>, n: nat)
    requires 0 < n <= |s| && Last(s[..n], HEADER_LEN) == SYNC && NoneBefore(s, n - 1)
    ensures n >= HEADER_LEN && FirstAt(s, n - HEADER_LEN)
  {
    assert Last(s[..n], HEADER_LEN) == s[n - HEADER_LEN..n];
  }

  lemma NotHere(s: seq<byte>, n: nat)
    requires 0 < n <= |s| && Last(s[..n], HEADER_LEN) != SYNC && NoneBefore(s, n - 1)
    ensures NoneBefore(s, n)
  {
    if n >= HEADER_LEN {
      assert Last(s[..n], HEADER_LEN) == s[n - HEADER_LEN..n];
    }
  }

  /** The marker overlaps no shifted copy of itself, so marker-free noise cannot run into it. */
  lemma NoiseThenSync(noise: seq<byte>, rest: seq<byte>)
    requires MarkerFree(noise)
    ensures FirstSync(noise + SYNC + rest) == Some(|noise|)
  {
    var s := noise + SYNC + rest;
    assert s[|noise|..|noise| + HEADER_LEN] == SYNC;
    assert SyncAt(s, |noise|);
    forall i | 0 <= i < |noise| ensures !SyncAt(s, i) {
      if i + HEADER_LEN <= |noise| {
        assert s[i..i + HEADER_LEN] == noise[i..i + HEADER_LEN];
        assert !SyncAt(noise, i);
      } else {
        // The marker ends in its only 'n'; here an earlier byte of the real marker would have to be one.
        assert SYNC[i + 8 - |noise|] != 0x6e;
        assert s[i..i + HEADER_LEN][8] == s[i + 8] == SYNC[i + 8 - |noise|];
      }
    }
  }

  // ---- Reading ----

  datatype Outcome = Got(frame: Frame, rest: seq<byte>) | End | UnexpectedEof

  datatype Turn = Skip(after: seq<byte>) | Stop(outcome: Outcome)

  /** One turn over stream `s`: a frame, or a marker or noise that an impossible length gives away. */
  function Look(s: seq<byte>): (t: Turn)
    ensures t.Skip? ==> |t.after| + HEADER_LEN <= |s|
    ensures t.Stop? && t.outcome.Got? ==> |t.outcome.rest| + HEADER_LEN <= |s|
  {
    if s == [] then Stop(End)
    else if |s| < HEADER_LEN then Stop(UnexpectedEof)
    else
      var header, body := s[..HEADER_LEN], s[HEADER_LEN..];
      var len := FromLittleEndian(header[..4]);
      if header == SYNC then Skip(body)
      else if len > MAX_PAYLOAD_LEN then
        var at := FirstSync(body);
        if at.None? then Stop(End) else Skip(body[at.value + HEADER_LEN..])
      else if |body| < len then Stop(UnexpectedEof)
      else Stop(Got(Frame(header[4], FromLittleEndian(header[5..9]), body[..len]), body[len..]))
  }

  /** The next frame of stream `s`. */
  function Read(s: seq<byte>): (r: Outcome)
    ensures r.Got? ==> |r.rest| + HEADER_LEN <= |s|
    decreases |s|
  {
    match Look(s)
    case Skip(after) => Read(after)
    case Stop(outcome) => outcome
  }

  /** Every frame up to the end of the stream, and how the stream ended. */
  function ReadAll(s: seq<byte>): (seq<Frame>, Outcome)
    decreases |s|
  {
    match Read(s)
    case Got(frame, rest) => var (frames, end) := ReadAll(rest); ([frame] + frames, end)
    case end => ([], end)
  }

  lemma ReadAllUnfold(s: seq<byte>)
    ensures Read(s).Got? ==> ReadAll(s) == ([Read(s).frame] + ReadAll(Read(s).rest).0, ReadAll(Read(s).rest).1)
    ensures !Read(s).Got? ==> ReadAll(s) == ([], Read(s))
  {
  }

  /** What was read and what is ahead make up the whole. */
  ghost predicate Ahead(frames: seq<Frame>, rest: seq<byte>, all: (seq<Frame>, Outcome)) {
    frames + ReadAll(rest).0 == all.0 && ReadAll(rest).1 == all.1
  }

  lemma AheadNext(frames: seq<Frame>, rest: seq<byte>, all: (seq<Frame>, Outcome))
    requires Ahead(frames, rest, all)
    ensures var r := Read(rest);
            if r.Got? then Ahead(frames + [r.frame], r.rest, all) else (frames, r) == all
  {
    ReadAllUnfold(rest);
    var r := Read(rest);
    if r.Got? {
      var more := ReadAll(r.rest).0;
      assert frames + ([r.frame] + more) == (frames + [r.frame]) + more;
    } else {
      assert frames + [] == frames;
    }
  }

  lemma HeaderIsNoMarker(len: nat, ty: byte, id: u32)
    requires len <= MAX_PAYLOAD_LEN
    ensures Header(len, ty, id)[..HEADER_LEN] != SYNC
  {
    assert Header(len, ty, id)[3] < 0xff;
  }

  lemma ReadEncoded(f: Frame, rest: seq<byte>)
    requires |f.payload| <= MAX_PAYLOAD_LEN
    ensures Read(Encode(f) + rest) == Got(f, rest)
  {
    var s := Encode(f) + rest;
    var header := Header(|f.payload|, f.ty, f.id);
    assert s[..HEADER_LEN] == header && s[HEADER_LEN..] == f.payload + rest;
    HeaderIsNoMarker(|f.payload|, f.ty, f.id);
    assert header[..HEADER_LEN] == header;
    assert header[..4] == LittleEndian(|f.payload|) && header[5..9] == LittleEndian(f.id);
  }

  /** A frame cut off anywhere before its end is an error, not an end. */
  lemma CutFrameIsAnError(f: Frame, n: nat)
    requires |f.payload| <= MAX_PAYLOAD_LEN && 0 < n < |Encode(f)|
    ensures Read(Encode(f)[..n]) == UnexpectedEof
  {
    var s, header := Encode(f)[..n], Header(|f.payload|, f.ty, f.id);
    if n >= HEADER_LEN {
      assert s[..HEADER_LEN] == header;
      HeaderIsNoMarker(|f.payload|, f.ty, f.id);
      assert header[..HEADER_LEN] == header && header[..4] == LittleEndian(|f.payload|);
    }
  }

  lemma ReadMarker(rest: seq<byte>)
    ensures Read(SYNC + rest) == Read(rest)
  {
    assert (SYNC + rest)[..HEADER_LEN] == SYNC && (SYNC + rest)[HEADER_LEN..] == rest;
  }

  /** What a host may put on the channel once it is aligned. */
  datatype Item = Marker | Data(frame: Frame)

  predicate Writable(items: seq<Item>) {
    forall i :: 0 <= i < |items| && items[i].Data? ==> |items[i].frame.payload| <= MAX_PAYLOAD_LEN
  }

  function Written(items: seq<Item>): seq<byte>
    requires Writable(items)
  {
    if items == [] then []
    else (if items[0].Marker? then SYNC else Encode(items[0].frame)) + Written(items[1..])
  }

  function FramesOf(items: seq<Item>): seq<Frame> {
    if items == [] then []
    else (if items[0].Marker? then [] else [items[0].frame]) + FramesOf(items[1..])
  }

  lemma ReadAllMarker(rest: seq<byte>)
    ensures ReadAll(SYNC + rest) == ReadAll(rest)
  {
    ReadMarker(rest);
  }

  lemma ReadAllFrame(f: Frame, rest: seq<byte>)
    requires |f.payload| <= MAX_PAYLOAD_LEN
    ensures ReadAll(Encode(f) + rest) == ([f] + ReadAll(rest).0, ReadAll(rest).1)
  {
    ReadEncoded(f, rest);
  }

  /** Any frames with any markers between them are read back as those frames, then a clean end. */
  lemma {:induction false} RoundTrip(items: seq<Item>)
    requires Writable(items)
    ensures ReadAll(Written(items)) == (FramesOf(items), End)
  {
    if items != [] {
      RoundTrip(items[1..]);
      if items[0].Marker? {
        ReadAllMarker(Written(items[1..]));
        assert FramesOf(items) == FramesOf(items[1..]);
      } else {
        ReadAllFrame(items[0].frame, Written(items[1..]));
      }
    }
  }

  /** After an impossible length, reading resumes right behind the first marker beyond that header. */
  lemma ReadPastGarbage(header: seq<byte>, noise: seq<byte>, rest: seq<byte>)
    requires |header| == HEADER_LEN && header != SYNC && FromLittleEndian(header[..4]) > MAX_PAYLOAD_LEN
    requires MarkerFree(noise)
    ensures Read(header + noise + SYNC + rest) == Read(rest)
    ensures Read(header + noise) == End
  {
    var s := header + noise + SYNC + rest;
    assert s[..HEADER_LEN] == header && s[HEADER_LEN..] == noise + SYNC + rest;
    NoiseThenSync(noise, rest);
    assert (noise + SYNC + rest)[|noise| + HEADER_LEN..] == rest;
    var t := header + noise;
    assert t[..HEADER_LEN] == header && t[HEADER_LEN..] == noise;
  }

  // ---- The code ----

  class Reader {
    const data: seq<byte>
    var pos: nat

    ghost predicate Valid() reads this { pos <= |data| }

    ghost function Rest(): seq<byte>
      reads this
      requires Valid()
    {
      data[pos..]
    }

    constructor (data: seq<byte>)
      ensures Valid() && Rest() == data
    {
      this.data := data;
      pos := 0;
    }

    method ReadByte() returns (b: Option<byte>)
      requires Valid()
      modifies this
      ensures Valid()
      ensures old(Rest()) == [] ==> b.None? && Rest() == []
      ensures old(Rest()) != [] ==> b == Some(old(Rest())[0]) && Rest() == old(Rest())[1..]
    {
      if pos == |data| {
        return None;
      }
      b := Some(data[pos]);
      pos := pos + 1;
    }

    method ReadExact(n: nat) returns (bytes: Option<seq<byte>>)
      requires Valid()
      modifies this
      ensures Valid()
      ensures n <= |old(Rest())| ==> bytes == Some(old(Rest())[..n]) && Rest() == old(Rest())[n..]
      ensures n > |old(Rest())| ==> bytes.None?
    {
      if |data| - pos < n {
        pos := |data|;
        return None;
      }
      assert data[pos..][..n] == data[pos..pos + n] && data[pos..][n..] == data[pos + n..];
      bytes := Some(data[pos..pos + n]);
      pos := pos + n;
    }

    /** Consume through the end of the first marker; false exactly when there is none. */
    method ResyncToMarker() returns (found: bool)
      requires Valid()
      modifies this
      ensures Valid()
      ensures !found ==> MarkerFree(old(Rest())) && Rest() == []
      ensures found ==> exists k: nat :: FirstAt(old(Rest()), k) && Rest() == old(Rest())[k + HEADER_LEN..]
    {
      ghost var s := Rest();
      var window := new byte[HEADER_LEN];
      var filled: nat := 0;
      ghost var n := 0;
      while true
        invariant Valid() && n <= |s| && Rest() == s[n..]
        invariant filled <= HEADER_LEN && window[..filled] == Last(s[..n], HEADER_LEN)
        invariant NoneBefore(s, n)
        decreases |s| - n
      {
        var b := ReadByte();
        if b.None? {
          assert s[..n] == s;
          return false;
        }
        assert s[n..][1..] == s[n + 1..];
        filled := Slide(window, filled, b.value);
        SlideSound(s, n);
        n := n + 1;
        assert window[..] == window[..HEADER_LEN];
        if filled == HEADER_LEN && window[..] == SYNC {
          EndsHere(s, n);
          return true;
        }
        NotHere(s, n);
      }
    }

    /** One turn of `ReadFrame`: read a header and what belongs to it. */
    method ReadTurn() returns (done: bool, r: Outcome)
      requires Valid()
      modifies this
      ensures Valid()
      ensures done ==> Look(old(Rest())) == Stop(r) && (r.Got? ==> Rest() == r.rest)
      ensures !done ==> Look(old(Rest())) == Skip(Rest())
    {
      ghost var s := Rest();
      var first := ReadByte();
      if first.None? {
        return true, End;
      }
      var others := ReadExact(HEADER_LEN - 1);
      if others.None? {
        return true, UnexpectedEof;
      }
      var header := [first.value] + others.value;
      assert header == s[..HEADER_LEN] && Rest() == s[HEADER_LEN..];
      if header == SYNC {
        return false, End;
      }
      var payloadLen := FromLittleEndian(header[..4]);
      if payloadLen > MAX_PAYLOAD_LEN {
        ghost var body := Rest();
        var found := ResyncToMarker();
        if !found {
          return true, End;
        }
        ghost var k: nat :| FirstAt(body, k) && Rest() == body[k + HEADER_LEN..];
        FirstAtIsFirst(body, k);
        return false, End;
      }
      var payload := [];
      if payloadLen != 0 {
        var bytes := ReadExact(payloadLen);
        if bytes.None? {
          return true, UnexpectedEof;
        }
        payload := bytes.value;
      }
      return true, Got(Frame(header[4], FromLittleEndian(header[5..9]), payload), data[pos..]);
    }

    method ReadFrame() returns (r: Outcome)
      requires Valid()
      modifies this
      ensures Valid()
      ensures r == Read(old(Rest())) && (r.Got? ==> Rest() == r.rest)
    {
      while true
        invariant Valid() && Read(Rest()) == Read(old(Rest()))
        decreases |Rest()|
      {
        var done;
        done, r := ReadTurn();
        if done {
          return;
        }
      }
    }

    method ReadToEnd() returns (frames: seq<Frame>, end: Outcome)
      requires Valid()
      modifies this
      ensures (frames, end) == ReadAll(old(Rest()))
    {
      frames := [];
      ghost var all := ReadAll(Rest());
      assert [] + all.0 == all.0;
      while true
        invariant Valid() && Ahead(frames, Rest(), all)
        decreases |Rest()|
      {
        AheadNext(frames, Rest(), all);
        var r := ReadFrame();
        if !r.Got? {
          return frames, r;
        }
        frames := frames + [r.frame];
      }
    }
  }

  /** Take one byte into the window, dropping the oldest byte once it is full. */
  method Slide(window: array<byte>, filled: nat, b: byte) returns (now: nat)
    requires window.Length == HEADER_LEN && filled <= HEADER_LEN
    modifies window
    ensures now <= HEADER_LEN && window[..now] == Last(old(window[..filled]) + [b], HEADER_LEN)
  {
    if filled < HEADER_LEN {
      window[filled] := b;
      now := filled + 1;
    } else {
      RotateLeft(window);
      window[HEADER_LEN - 1] := b;
      now := HEADER_LEN;
    }
  }

  method RotateLeft(window: array<byte>)
    requires window.Length == HEADER_LEN
    modifies window
    ensures window[..HEADER_LEN - 1] == old(window[1..])
  {
    var first := window[0];
    var i := 0;
    while i < HEADER_LEN - 1
      invariant 0 <= i <= HEADER_LEN - 1
      invariant forall k :: 0 <= k < i ==> window[k] == old(window[k + 1])
      invariant forall k :: i <= k < HEADER_LEN ==> window[k] == old(window[k])
    {
      window[i] := window[i + 1];
      i := i + 1;
    }
    window[HEADER_LEN - 1] := first;
  }

  class Writer {
    var bytes: seq<byte>

    constructor ()
      ensures bytes == []
    {
      bytes := [];
    }

    method WriteFrame(ty: byte, id: u32, payload: seq<byte>) returns (ok: bool)
      modifies this
      ensures ok == (|payload| <= MAX_PAYLOAD_LEN)
      ensures bytes == old(bytes) + if ok then Encode(Frame(ty, id, payload)) else []
    {
      if |payload| > MAX_PAYLOAD_LEN {
        return false;
      }
      var header := new byte[HEADER_LEN];
      var len, tag := LittleEndian(|payload|), LittleEndian(id);
      header[0], header[1], header[2], header[3] := len[0], len[1], len[2], len[3];
      header[4] := ty;
      header[5], header[6], header[7], header[8] := tag[0], tag[1], tag[2], tag[3];
      assert header[..] == Header(|payload|, ty, id);
      bytes := bytes + header[..];
      bytes := bytes + payload;
      ok := true;
    }
  }

  /** What the agent's serve loop hands to its handlers, and how it stops. */
  function Served(data: seq<byte>): (seq<Frame>, Outcome) {
    var at := FirstSync(data);
    if at.None? then ([], End) else ReadAll(data[at.value + HEADER_LEN..])
  }

  /** Boot noise, the host's marker, then traffic: the agent handles exactly the frames sent. */
  lemma NoiseThenTraffic(noise: seq<byte>, items: seq<Item>)
    requires MarkerFree(noise) && Writable(items)
    ensures Served(noise + SYNC + Written(items)) == (FramesOf(items), End)
  {
    NoiseThenSync(noise, Written(items));
    assert (noise + SYNC + Written(items))[|noise| + HEADER_LEN..] == Written(items);
    RoundTrip(items);
  }

  method Serve(data: seq<byte>) returns (frames: seq<Frame>, end: Outcome)
    ensures (frames, end) == Served(data)
  {
    var reader := new Reader(data);
    var found := reader.ResyncToMarker();
    if !found {
      return [], End;
    }
    ghost var k: nat :| FirstAt(data, k) && reader.Rest() == data[k + HEADER_LEN..];
    FirstAtIsFirst(data, k);
    frames, end := reader.ReadToEnd();
  }
}
