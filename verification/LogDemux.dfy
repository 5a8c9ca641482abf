/**
 The demultiplexer for docker's log stream (internal/docker/logs.go): frames of
 an 8-byte header and a payload, each payload cut into lines.
 */
module LogDemux {
  import opened Prelude

  const NEWLINE: byte := 10
  const RETURN: byte := 13

  datatype LogLine = LogLine(stream: string, line: bytes)

  function StreamName(b: byte): (name: string)
    ensures name == "stdout" <==> b == 1
    ensures name == "stderr" <==> b == 2
    ensures name == "stdin" <==> b != 1 && b != 2
  {
    if b == 1 then "stdout" else if b == 2 then "stderr" else "stdin"
  }

  // ---- lines of a payload ----

  lemma Regroup<T>(a: seq<T>, b: seq<T>, c: seq<T>)
    ensures (a + b) + c == a + (b + c)
  {
  }

  /** bytes.Split at every newline. */
  function Split(s: bytes): (pieces: seq<bytes>)
    ensures pieces != []
  {
    if s == [] then [[]]
    else
      var rest := Split(s[1..]);
      if s[0] == NEWLINE then [[]] + rest else [[s[0]] + rest[0]] + rest[1..]
  }

  function Join(pieces: seq<bytes>): bytes
    requires pieces != []
  {
    if |pieces| == 1 then pieces[0] else pieces[0] + [NEWLINE] + Join(pieces[1..])
  }

  predicate NewlineFree(pieces: seq<bytes>) {
    forall i :: 0 <= i < |pieces| ==> NEWLINE !in pieces[i]
  }

  lemma JoinCons(piece: bytes, rest: seq<bytes>)
    requires rest != []
    ensures Join([piece] + rest) == piece + [NEWLINE] + Join(rest)
  {
    assert ([piece] + rest)[1..] == rest;
  }

  lemma {:induction false} SplitJoins(s: bytes)
    ensures Join(Split(s)) == s && NewlineFree(Split(s))
  {
    if s != [] {
      SplitJoins(s[1..]);
      var rest := Split(s[1..]);
      assert s == [s[0]] + s[1..];
      if s[0] == NEWLINE {
        JoinCons([], rest);
        assert [] + [NEWLINE] + Join(rest) == [NEWLINE] + s[1..];
      } else {
        assert rest == [rest[0]] + rest[1..];
        GrowFirst(s[0], rest[0], rest[1..]);
        GrowFirstNewlineFree(s[0], rest[0], rest[1..]);
      }
    }
  }

  /** Lengthening the first piece lengthens the whole. */
  lemma GrowFirst(c: byte, first: bytes, rest: seq<bytes>)
    ensures Join([[c] + first] + rest) == [c] + Join([first] + rest)
  {
    if rest != [] {
      JoinCons([c] + first, rest);
      JoinCons(first, rest);
      assert ([c] + first) + [NEWLINE] + Join(rest) == [c] + (first + [NEWLINE] + Join(rest));
    }
  }

  lemma GrowFirstNewlineFree(c: byte, first: bytes, rest: seq<bytes>)
    requires c != NEWLINE && NewlineFree([first] + rest)
    ensures NewlineFree([[c] + first] + rest)
  {
    var pieces, grown := [first] + rest, [[c] + first] + rest;
    assert pieces[0] == first;
    forall i | 0 <= i < |grown| ensures NEWLINE !in grown[i] {
      assert NEWLINE !in pieces[i];
    }
  }

  lemma {:induction false} SplitOfPiece(p: bytes, rest: bytes)
    requires NEWLINE !in p
    ensures Split(p + [NEWLINE] + rest) == [p] + Split(rest)
    ensures Split(p) == [p]
  {
    var s := p + [NEWLINE] + rest;
    if p == [] {
      assert s[1..] == rest;
    } else {
      assert s[1..] == p[1..] + [NEWLINE] + rest;
      SplitOfPiece(p[1..], rest);
      assert ([p[1..]] + Split(rest))[1..] == Split(rest);
      assert [p[0]] + p[1..] == p;
    }
  }

  /** Splitting finds the one way to read the bytes as newline-free pieces. */
  lemma {:induction false} SplitIsUnique(pieces: seq<bytes>)
    requires pieces != [] && NewlineFree(pieces)
    ensures Split(Join(pieces)) == pieces
  {
    if |pieces| == 1 {
      SplitOfPiece(pieces[0], []);
    } else {
      SplitIsUnique(pieces[1..]);
      SplitOfPiece(pieces[0], Join(pieces[1..]));
      assert [pieces[0]] + pieces[1..] == pieces;
    }
  }

  /** strings.TrimRight of carriage returns. */
  function TrimReturns(line: bytes): (t: bytes)
    ensures t <= line && (t == [] || t[|t| - 1] != RETURN)
    ensures forall i :: |t| <= i < |line| ==> line[i] == RETURN
  {
    if line != [] && line[|line| - 1] == RETURN then TrimReturns(line[..|line| - 1]) else line
  }

  /** The log lines of a list of pieces: empty pieces skipped, the rest trimmed and tagged. */
  function Emitted(pieces: seq<bytes>, stream: string): seq<LogLine> {
    if pieces == [] then []
    else LineOf(pieces[0], stream) + Emitted(pieces[1..], stream)
  }

  function LineOf(p: bytes, stream: string): seq<LogLine> {
    if p == [] then [] else [LogLine(stream, TrimReturns(p))]
  }

  lemma {:induction false} EmittedAppend(pieces: seq<bytes>, p: bytes, stream: string)
    ensures Emitted(pieces + [p], stream) == Emitted(pieces, stream) + LineOf(p, stream)
  {
    if pieces == [] {
      assert [] + [p] == [p];
    } else {
      assert (pieces + [p])[1..] == pieces[1..] + [p];
      EmittedAppend(pieces[1..], p, stream);
      Regroup(LineOf(pieces[0], stream), Emitted(pieces[1..], stream), LineOf(p, stream));
    }
  }

  /** An empty piece anywhere makes no line. */
  lemma {:induction false} EmptyPieceIsSilent(before: seq<bytes>, after: seq<bytes>, stream: string)
    ensures Emitted(before + [[]] + after, stream) == Emitted(before + after, stream)
  {
    if before == [] {
      assert ([] + [[]] + after)[1..] == after && [] + after == after;
    } else {
      assert (before + [[]] + after)[1..] == before[1..] + [[]] + after;
      assert (before + after)[1..] == before[1..] + after;
      EmptyPieceIsSilent(before[1..], after, stream);
    }
  }

  /** Any other piece makes one line, in its place, under the stream, without its trailing carriage returns. */
  lemma {:induction false} PiecesMakeLines(pieces: seq<bytes>, stream: string)
    requires forall i :: 0 <= i < |pieces| ==> pieces[i] != []
    ensures |Emitted(pieces, stream)| == |pieces|
    ensures forall i :: 0 <= i < |pieces| ==> Emitted(pieces, stream)[i] == LogLine(stream, TrimReturns(pieces[i]))
  {
    if pieces != [] {
      PiecesMakeLines(pieces[1..], stream);
    }
  }

  lemma {:induction false} EmittedPrefix(pieces: seq<bytes>, n: nat, stream: string)
    requires n <= |pieces|
    ensures Emitted(pieces[..n], stream) <= Emitted(pieces, stream)
    decreases |pieces| - n
  {
    if n == |pieces| {
      assert pieces[..n] == pieces;
    } else {
      assert pieces[..n + 1] == pieces[..n] + [pieces[n]];
      EmittedAppend(pieces[..n], pieces[n], stream);
      EmittedPrefix(pieces, n + 1, stream);
    }
  }

  // ---- frames ----

  function Uint32(b: bytes): nat
    requires |b| == 4
  {
    b[0] as int * 0x100_0000 + b[1] as int * 0x1_0000 + b[2] as int * 0x100 + b[3] as int
  }

  function PutUint32(n: nat): (b: bytes)
    requires n < 0x1_0000_0000
    ensures |b| == 4
  {
    [n / 0x100_0000, n / 0x1_0000 % 0x100, n / 0x100 % 0x100, n % 0x100]
  }

  lemma Uint32RoundTrip(n: nat)
    requires n < 0x1_0000_0000
    ensures Uint32(PutUint32(n)) == n
  {
    var high := n / 0x1_0000;
    assert n / 0x100_0000 == high / 0x100;
    assert n / 0x100 == high * 0x100 + n / 0x100 % 0x100;
  }

  /** The stream starts with a whole frame. */
  predicate Whole(s: bytes) {
    |s| >= 8 && |s| >= 8 + Uint32(s[4..8])
  }

  function FirstLines(s: bytes): seq<LogLine>
    requires Whole(s)
  {
    Emitted(Split(s[8..8 + Uint32(s[4..8])]), StreamName(s[0]))
  }

  function AfterFirst(s: bytes): bytes
    requires Whole(s)
  {
    s[8 + Uint32(s[4..8])..]
  }

  /** The lines of a multiplexed stream: those of its complete frames. */
  function Lines(s: bytes): seq<LogLine>
    decreases |s|
  {
    if Whole(s) then FirstLines(s) + Lines(AfterFirst(s)) else []
  }

  datatype Frame = Frame(id: byte, padding: bytes, payload: bytes) {
    predicate Valid() {
      |padding| == 3 && |payload| < 0x1_0000_0000
    }

    function Encode(): (s: bytes)
      requires Valid()
      ensures |s| == 8 + |payload|
    {
      [id] + padding + PutUint32(|payload|) + payload
    }
  }

  predicate AllValid(frames: seq<Frame>) {
    forall f :: f in frames ==> f.Valid()
  }

  function EncodeAll(frames: seq<Frame>): bytes
    requires AllValid(frames)
  {
    if frames == [] then [] else frames[0].Encode() + EncodeAll(frames[1..])
  }

  function LinesOf(frames: seq<Frame>): seq<LogLine> {
    if frames == [] then []
    else Emitted(Split(frames[0].payload), StreamName(frames[0].id)) + LinesOf(frames[1..])
  }

  /** Where the parts of a frame lie in its bytes. */
  lemma EncodeShape(f: Frame)
    requires f.Valid()
    ensures f.Encode()[0] == f.id && f.Encode()[4..8] == PutUint32(|f.payload|) && f.Encode()[8..] == f.payload
  {
    var head, size := [f.id] + f.padding, PutUint32(|f.payload|);
    assert |head| == 4 && f.Encode() == head + (size + f.payload);
    assert f.Encode()[4..] == size + f.payload;
    assert f.Encode()[4..8] == f.Encode()[4..][..4];
    assert f.Encode()[8..] == f.Encode()[4..][4..];
  }

  lemma FrameHeads(f: Frame, rest: bytes)
    requires f.Valid()
    ensures Lines(f.Encode() + rest) == Emitted(Split(f.payload), StreamName(f.id)) + Lines(rest)
  {
    var e := f.Encode();
    var s := e + rest;
    EncodeShape(f);
    Uint32RoundTrip(|f.payload|);
    assert s[0] == f.id && s[4..8] == e[4..8];
    assert s[8..8 + |f.payload|] == e[8..];
    assert s[8 + |f.payload|..] == rest;
  }

  lemma CutFrameIsSilent(f: Frame, k: nat)
    requires f.Valid() && k < |f.Encode()|
    ensures Lines(f.Encode()[..k]) == []
  {
    var s := f.Encode()[..k];
    if k >= 8 {
      EncodeShape(f);
      assert s[4..8] == f.Encode()[4..8];
      Uint32RoundTrip(|f.payload|);
    }
  }

  lemma {:induction false} FramesThen(frames: seq<Frame>, rest: bytes)
    requires AllValid(frames)
    ensures Lines(EncodeAll(frames) + rest) == LinesOf(frames) + Lines(rest)
    decreases |frames|
  {
    if frames == [] {
      assert EncodeAll(frames) + rest == rest;
    } else {
      var f, tail := frames[0], EncodeAll(frames[1..]);
      var head := Emitted(Split(f.payload), StreamName(f.id));
      FramesThen(frames[1..], rest);
      FrameHeads(f, tail + rest);
      Regroup(f.Encode(), tail, rest);
      Regroup(head, LinesOf(frames[1..]), Lines(rest));
    }
  }

  /**
   Demultiplexing inverts framing, whatever the ids and padding: the parser
   yields each payload's lines in order under its stream; and a stream that
   breaks off inside a further frame yields exactly the lines of the frames
   that came whole.
   */
  lemma DemuxInvertsFraming(frames: seq<Frame>, open: Frame, k: nat)
    requires AllValid(frames) && open.Valid() && k < |open.Encode()|
    ensures Lines(EncodeAll(frames)) == LinesOf(frames)
    ensures Lines(EncodeAll(frames) + open.Encode()[..k]) == LinesOf(frames)
  {
    FramesThen(frames, []);
    assert EncodeAll(frames) + [] == EncodeAll(frames);
    FramesThen(frames, open.Encode()[..k]);
    CutFrameIsSilent(open, k);
  }

  /** The id docker's framing gives each stream. */
  function StreamId(stream: string): byte {
    match stream
    case "stdout" => 1
    case "stderr" => 2
    case _ => 0
  }

  /** A line the demultiplexer can produce from a single printed line. */
  predicate Printed(l: LogLine) {
    && l.stream in {"stdin", "stdout", "stderr"}
    && l.line != [] && NEWLINE !in l.line && l.line[|l.line| - 1] != RETURN
  }

  predicate Returns(s: bytes) {
    forall i :: 0 <= i < |s| ==> s[i] == RETURN
  }

  /** Each line in a frame of its own, ended by carriage returns and a newline. */
  function Framed(lines: seq<LogLine>, ends: bytes): seq<Frame> {
    if lines == [] then []
    else
      [Frame(StreamId(lines[0].stream), [0, 0, 0], lines[0].line + ends + [NEWLINE])]
      + Framed(lines[1..], ends)
  }

  lemma {:induction false} TrimsJustReturns(line: bytes, ends: bytes)
    requires line != [] && line[|line| - 1] != RETURN && Returns(ends)
    ensures TrimReturns(line + ends) == line
    decreases |ends|
  {
    if ends == [] {
      assert line + ends == line;
    } else {
      var fewer := ends[..|ends| - 1];
      var s := line + ends;
      assert s[|s| - 1] == ends[|ends| - 1];
      assert s[..|s| - 1] == line + fewer;
      TrimsJustReturns(line, fewer);
    }
  }

  lemma PrintedLineSurvives(l: LogLine, ends: bytes)
    requires Printed(l) && Returns(ends)
    ensures Emitted(Split(l.line + ends + [NEWLINE]), StreamName(StreamId(l.stream))) == [l]
  {
    var p := l.line + ends;
    SplitOfPiece(p, []);
    assert p + [NEWLINE] + [] == p + [NEWLINE];
    TrimsJustReturns(l.line, ends);
    assert ([p] + [[]])[1..] == [[]];
    assert Emitted([[]], l.stream) == [];
  }

  lemma LinesOfCons(f: Frame, rest: seq<Frame>)
    ensures LinesOf([f] + rest) == Emitted(Split(f.payload), StreamName(f.id)) + LinesOf(rest)
  {
    assert ([f] + rest)[1..] == rest;
  }

  lemma {:induction false} FramedLines(lines: seq<LogLine>, ends: bytes)
    requires (forall l :: l in lines ==> Printed(l)) && Returns(ends)
    ensures LinesOf(Framed(lines, ends)) == lines
  {
    if lines != [] {
      var f, rest := Frame(StreamId(lines[0].stream), [0, 0, 0], lines[0].line + ends + [NEWLINE]), Framed(lines[1..], ends);
      FramedLines(lines[1..], ends);
      PrintedLineSurvives(lines[0], ends);
      LinesOfCons(f, rest);
      assert Framed(lines, ends) == [f] + rest;
      assert lines == [lines[0]] + lines[1..];
    }
  }

  /** Printed lines reach the reader unchanged, each under its own stream. */
  lemma PrintedLinesSurvive(lines: seq<LogLine>, ends: bytes)
    requires (forall l :: l in lines ==> Printed(l)) && Returns(ends)
    requires AllValid(Framed(lines, ends))
    ensures Lines(EncodeAll(Framed(lines, ends))) == lines
  {
    var frames := Framed(lines, ends);
    FramesThen(frames, []);
    assert EncodeAll(frames) + [] == EncodeAll(frames);
    FramedLines(lines, ends);
  }

  /** A cut behind the first frame leaves that frame alone; any other leaves none. */
  lemma CutFirstFrame(s: bytes, k: nat)
    requires k <= |s|
    ensures Whole(s[..k]) ==> Whole(s) && FirstLines(s[..k]) == FirstLines(s)
    ensures Whole(s[..k]) ==> |s| - |AfterFirst(s)| <= k && AfterFirst(s[..k]) == AfterFirst(s)[..k - (|s| - |AfterFirst(s)|)]
  {
    var cut := s[..k];
    if k >= 8 {
      assert cut[4..8] == s[4..8];
      var size := Uint32(s[4..8]);
      if k >= 8 + size {
        assert cut[8..8 + size] == s[8..8 + size];
        assert cut[8 + size..] == s[8 + size..][..k - (8 + size)];
      }
    }
  }

  /** Cut at any byte, any stream at all yields a prefix of its lines. */
  lemma {:induction false} CutStreamYieldsPrefix(s: bytes, k: nat)
    requires k <= |s|
    ensures Lines(s[..k]) <= Lines(s)
    decreases |s|
  {
    CutFirstFrame(s, k);
    if Whole(s[..k]) {
      var rest, j := AfterFirst(s), k - (|s| - |AfterFirst(s)|);
      CutStreamYieldsPrefix(rest, j);
      PrefixBehind(FirstLines(s), Lines(rest[..j]), Lines(rest));
    }
  }

  lemma PrefixBehind<T>(head: seq<T>, a: seq<T>, b: seq<T>)
    requires a <= b
    ensures head + a <= head + b
  {
    assert b == a + b[|a|..];
    assert head + b == head + a + b[|a|..];
  }

  // ---- the reader loop ----

  class Reader {
    const data: bytes
    var pos: nat

    constructor (data: bytes)
      ensures this.data == data && pos == 0
    {
      this.data := data;
      pos := 0;
    }

    method Peek() returns (b: Option<byte>)
      requires pos <= |data|
      ensures b == if pos < |data| then Some(data[pos]) else None
    {
      b := if pos < |data| then Some(data[pos]) else None;
    }

    /** io.ReadFull: fills the buffer, or fails when the stream ends first. */
    method ReadFull(buf: array<byte>) returns (ok: bool)
      requires pos <= |data|
      modifies this`pos, buf
      ensures pos <= |data|
      ensures ok == (old(pos) + buf.Length <= |data|)
      ensures ok ==> pos == old(pos) + buf.Length && buf[..] == data[old(pos)..pos]
    {
      ok := pos + buf.Length <= |data|;
      if !ok {
        pos := |data|;
        return;
      }
      for i := 0 to buf.Length
        invariant pos == old(pos)
        invariant forall k :: 0 <= k < i ==> buf[k] == data[pos + k]
      {
        buf[i] := data[pos + i];
      }
      pos := pos + buf.Length;
    }
  }

  lemma NextPiece(pieces: seq<bytes>, i: nat, stream: string)
    requires i < |pieces|
    ensures Emitted(pieces[..i + 1], stream) ==
            Emitted(pieces[..i], stream) + LineOf(pieces[i], stream)
    ensures Emitted(pieces[..i], stream) <= Emitted(pieces, stream)
  {
    assert pieces[..i + 1] == pieces[..i] + [pieces[i]];
    EmittedAppend(pieces[..i], pieces[i], stream);
    EmittedPrefix(pieces, i, stream);
  }

  lemma PrefixOfSum<T>(a: seq<T>, b: seq<T>, c: seq<T>)
    requires a <= b
    ensures a <= b + c && c + a <= c + b
  {
  }

  /** The context may be cancelled before any line; then the rest is dropped. */
  method EmitPieces(pieces: seq<bytes>, stream: string, sent: seq<LogLine>) returns (out: seq<LogLine>, cancelled: bool)
    ensures out <= sent + Emitted(pieces, stream)
    ensures !cancelled ==> out == sent + Emitted(pieces, stream)
  {
    out, cancelled := sent, false;
    for i := 0 to |pieces|
      invariant out == sent + Emitted(pieces[..i], stream)
    {
      NextPiece(pieces, i, stream);
      if |pieces[i]| == 0 {
        continue;
      }
      if * {
        PrefixOfSum(Emitted(pieces[..i], stream), Emitted(pieces, stream), sent);
        return out, true;
      }
      Regroup(sent, Emitted(pieces[..i], stream), LineOf(pieces[i], stream));
      out := out + [LogLine(stream, TrimReturns(pieces[i]))];
    }
    assert pieces[..|pieces|] == pieces;
  }

  /** `s` starts with a whole frame, `after` being what follows it. */
  ghost predicate StartsWithFrame(s: bytes, id: byte, payload: bytes, after: bytes) {
    Whole(s) && id == s[0] && payload == s[8..8 + Uint32(s[4..8])] && after == AfterFirst(s)
  }

  lemma LinesOfFrame(s: bytes, id: byte, payload: bytes, after: bytes)
    requires StartsWithFrame(s, id, payload, after)
    ensures Lines(s) == Emitted(Split(payload), StreamName(id)) + Lines(after)
  {
  }

  lemma LinesOfNoFrame(s: bytes)
    requires !Whole(s)
    ensures Lines(s) == []
  {
  }

  /** One round's reads: header, then a payload of the announced size. */
  method ReadFrame(r: Reader, header: array<byte>) returns (ok: bool, payload: bytes)
    requires r.pos <= |r.data| && header.Length == 8
    modifies r`pos, header
    ensures r.pos <= |r.data|
    ensures ok ==> r.pos == old(r.pos) + 8 + |payload|
    ensures ok ==> |payload| == ((header[4] as int * 256 + header[5] as int) * 256 + header[6] as int) * 256 + header[7] as int
    ensures var rest := r.data[old(r.pos)..];
            if ok then StartsWithFrame(rest, header[0], payload, r.data[r.pos..])
            else !Whole(rest)
  {
    ghost var rest := r.data[r.pos..];
    payload := [];
    ok := r.ReadFull(header);
    if !ok {
      return;
    }
    assert header[..] == rest[..8] && header[4..8] == rest[4..8];
    var size := Uint32(header[4..8]);
    if size == 0 {
      return;
    }
    var buf := new byte[size];
    ok := r.ReadFull(buf);
    if ok {
      payload := buf[..];
    }
  }

  /** One round of the read loop, `all` being what the stream holds; `stop` when the loop returns. */
  method Round(r: Reader, header: array<byte>, sent: seq<LogLine>, ghost all: seq<LogLine>)
    returns (out: seq<LogLine>, stop: bool, cancelled: bool)
    requires r.pos <= |r.data| && header.Length == 8
    requires all == sent + Lines(r.data[r.pos..])
    modifies r`pos, header
    ensures r.pos <= |r.data| && out <= all && (cancelled ==> stop)
    ensures stop && !cancelled ==> out == all
    ensures !stop ==> r.pos > old(r.pos) && all == out + Lines(r.data[r.pos..])
  {
    if * {
      return sent, true, true;
    }
    ghost var todo := r.data[r.pos..];
    var ok, payload := ReadFrame(r, header);
    if !ok {
      LinesOfNoFrame(todo);
      return sent, true, false;
    }
    LinesOfFrame(todo, header[0], payload, r.data[r.pos..]);
    ghost var lines := Emitted(Split(payload), StreamName(header[0]));
    ghost var rest := Lines(r.data[r.pos..]);
    Regroup(sent, lines, rest);
    out, cancelled := EmitPieces(Split(payload), StreamName(header[0]), sent);
    PrefixOfSum(out, sent + lines, rest);
    stop := cancelled;
  }

  /**
   The read loop, for streams that start like a multiplexed one: it ends, every
   round taking at least a header, and unless cancelled it has sent exactly the
   lines of the stream.
   */
  method DemuxLogs(r: Reader) returns (out: seq<LogLine>, tty: bool, cancelled: bool)
    requires r.pos == 0
    modifies r`pos
    ensures tty <==> r.data != [] && r.data[0] > 2
    ensures !tty ==> out <= Lines(r.data)
    ensures !tty && !cancelled ==> out == Lines(r.data)
  {
    out, tty, cancelled := [], false, false;
    var first := r.Peek();
    if first == None {
      return;
    }
    if first.value > 2 {
      tty := true;
      return;
    }
    var header := new byte[8];
    ghost var all := Lines(r.data);
    assert r.data[0..] == r.data && [] + all == all;
    var stop := false;
    while !stop
      invariant r.pos <= |r.data| && out <= all && (cancelled ==> stop)
      invariant stop && !cancelled ==> out == all
      invariant !stop ==> all == out + Lines(r.data[r.pos..])
      decreases !stop, |r.data| - r.pos
    {
      out, stop, cancelled := Round(r, header, out, all);
    }
  }
}
