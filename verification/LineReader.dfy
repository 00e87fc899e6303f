/** The line reader of playtreeparser.c: lines of a stream through a growing buffer. */
module LineReader {
  import opened Common

  const BUF_STEP := 1024

  // ---------- the lines of a text ----------

  /** NUL bytes read as newlines. */
  function Nl(s: string): (r: string)
    ensures |r| == |s| && NUL !in r
  {
    seq(|s|, i requires 0 <= i < |s| => if s[i] == NUL then '\n' else s[i])
  }

  /** A line without the carriage return in front of its newline. */
  function Chomp(line: string): string {
    if line != "" && line[|line| - 1] == '\r' then line[..|line| - 1] else line
  }

  lemma ChompIs(line: string)
    ensures Chomp(line) == if line != "" && line[|line| - 1] == '\r' then line[..|line| - 1] else line
  {}

  /** The text up to the first newline, and what follows it. */
  function FirstLine(s: string): string {
    Chomp(s[..Find(s, '\n')])
  }

  function AfterLine(s: string): (r: string)
    ensures s != "" ==> |r| < |s|
  {
    var k := Find(s, '\n');
    if k < |s| then s[k + 1..] else ""
  }

  function Lines(s: string): seq<string>
    decreases |s|
  {
    if s == "" then [] else [FirstLine(s)] + Lines(AfterLine(s))
  }

  /** Lines, each with what ends it. */
  function Joined(lines: seq<string>, ends: seq<string>): string
    requires |ends| == |lines|
  {
    if lines == [] then "" else lines[0] + ends[0] + Joined(lines[1..], ends[1..])
  }

  /** A list of lines reads back as that list, whether a line is ended by a newline, by a NUL byte, or by a carriage
      return and a newline; only in front of the former two a line cannot end in a carriage return itself. */
  lemma {:induction false} LinesOfJoined(lines: seq<string>, ends: seq<string>)
    requires |ends| == |lines| && forall i :: 0 <= i < |lines| ==> '\n' !in lines[i] && NUL !in lines[i]
    requires forall i :: 0 <= i < |lines| ==>
      || ends[i] == "\r\n"
      || ((ends[i] == "\n" || ends[i] == [0 as char]) && (lines[i] == "" || lines[i][|lines[i]| - 1] != '\r'))
    ensures Lines(Nl(Joined(lines, ends))) == lines
    decreases |lines|
  {
    if lines != [] {
      hide Nl, Lines;
      var rest := Joined(lines[1..], ends[1..]);
      LinesOfJoined(lines[1..], ends[1..]);
      LineOfJoined(lines[0], ends[0], rest);
      NlConcat(lines[0] + ends[0], rest);
      LinesFrom(Nl(lines[0] + ends[0]) + Nl(rest), lines[0], Nl(rest));
    }
  }

  lemma LinesFrom(s: string, line: string, rest: string)
    requires s != "" && FirstLine(s) == line && AfterLine(s) == rest
    ensures Lines(s) == [line] + Lines(rest)
  {
    hide FirstLine, AfterLine;
  }

  lemma LineOfJoined(l: string, e: string, rest: string)
    requires '\n' !in l && NUL !in l
    requires e == "\r\n" || ((e == "\n" || e == [0 as char]) && (l == "" || l[|l| - 1] != '\r'))
    ensures var s := Nl(l + e) + Nl(rest); s != "" && FirstLine(s) == l && AfterLine(s) == Nl(rest)
  {
    hide *;
    var head := if e == "\r\n" then l + "\r" else l;
    NlLine(l, e);
    ChompEnd(l, e);
    FirstIs(head, Nl(rest));
  }

  lemma NlLine(l: string, e: string)
    requires '\n' !in l && NUL !in l && (e == "\r\n" || e == "\n" || e == [0 as char])
    ensures var head := if e == "\r\n" then l + "\r" else l; '\n' !in head && Nl(l + e) == head + ['\n']
  {}

  lemma ChompEnd(l: string, e: string)
    requires e == "\r\n" || l == "" || l[|l| - 1] != '\r'
    ensures Chomp(if e == "\r\n" then l + "\r" else l) == l
  {}

  lemma FirstIs(head: string, rest: string)
    requires '\n' !in head
    ensures var s := head + ['\n'] + rest; s != "" && FirstLine(s) == Chomp(head) && AfterLine(s) == rest
  {
    hide Chomp;
    FindAt(head, '\n', rest);
    assert (head + ['\n'] + rest)[..|head|] == head;
  }

  lemma NlConcat(a: string, b: string)
    ensures Nl(a + b) == Nl(a) + Nl(b)
  {}

  lemma EndFound(stored: string, rest: string, iter: nat, end: nat)
    requires iter <= end <= |stored| && end - iter == Find(stored[iter..], '\n') && (end < |stored| || rest == "")
    ensures iter <= |stored + rest| && end - iter == Find((stored + rest)[iter..], '\n')
  {
    assert (stored + rest)[iter..] == stored[iter..] + rest;
    FindConcat(stored[iter..], rest, '\n');
  }

  /** The next line and what follows it, in terms of the stored text. */
  lemma LineIs(stored: string, rest: string, iter: nat, end: nat)
    requires iter <= end <= |stored| && (end < |stored| || rest == "")
    requires end - iter == Find((stored + rest)[iter..], '\n')
    ensures FirstLine((stored + rest)[iter..]) == Chomp(stored[iter..end])
    ensures AfterLine((stored + rest)[iter..]) == (stored + rest)[if end < |stored| then end + 1 else end..]
  {
    assert (stored + rest)[iter..][..end - iter] == stored[iter..end];
    hide Chomp;
  }

  // ---------- the stream ----------

  /** A stream that delivers its data in pieces of arbitrary size. */
  class Stream {
    var data: string      // not yet delivered
    var eof: bool
    var pieces: seq<nat>  // sizes of the next deliveries, as far as they are known

    constructor (data: string, pieces: seq<nat>)
      ensures this.data == data && !eof
    {
      this.data, this.pieces, eof := data, pieces, false;
    }

    /** `stream_read`: some of the data; nothing only at the end. */
    method Read(n: nat) returns (chunk: string)
      requires n > 0 && !eof
      modifies this
      ensures old(data) == chunk + data && |chunk| <= n
      ensures eof ==> data == ""
      ensures chunk == "" ==> eof
    {
      var k := if pieces == [] || pieces[0] == 0 || pieces[0] > n then n else pieces[0];
      if k > |data| {
        k := |data|;
        eof := true;
      }
      chunk, data := data[..k], data[k..];
      if pieces != [] {
        pieces := pieces[1..];
      }
    }
  }

  // ---------- the reader ----------

  class Reader {
    const stream: Stream
    var buffer: array?<char>
    var iter: nat
    var bufferEnd: nat
    var keep: bool

    ghost predicate Valid()
      reads this, buffer, stream
    {
      && (stream.eof ==> stream.data == "")
      && (buffer == null ==> iter == bufferEnd == 0)
      && (buffer != null ==>
            iter <= bufferEnd < buffer.Length && buffer[bufferEnd] == NUL && NUL !in buffer[..bufferEnd])
      && (!keep ==> iter == 0)
    }

    ghost function Stored(): (s: string)
      reads this, buffer, stream
      requires Valid()
      ensures |s| == bufferEnd
    {
      if buffer == null then "" else buffer[..bufferEnd]
    }

    /** The text from the start of the buffer on: what a reset goes back to. */
    ghost function Whole(): string
      reads this, buffer, stream
      requires Valid()
    {
      Stored() + Nl(stream.data)
    }

    /** The text not yet returned. */
    ghost function Pending(): string
      reads this, buffer, stream
      requires Valid()
    {
      Whole()[iter..]
    }

    constructor (stream: Stream)
      requires !stream.eof
      ensures Valid() && this.stream == stream && keep && buffer == null
      ensures Pending() == Whole() == Nl(stream.data)
    {
      this.stream := stream;
      buffer, iter, bufferEnd, keep := null, 0, 0, true;
      new;
      assert "" + Nl(stream.data) == Nl(stream.data);
    }

    /** `strlen` from a place in the buffer, as an index. */
    method StrEnd(from: nat) returns (k: nat)
      requires buffer != null && from <= bufferEnd < buffer.Length && buffer[bufferEnd] == NUL
      ensures from <= k <= bufferEnd && buffer[k] == NUL && forall j :: from <= j < k ==> buffer[j] != NUL
    {
      k := from;
      while buffer[k] != NUL
        invariant from <= k <= bufferEnd && forall j :: from <= j < k ==> buffer[j] != NUL
        decreases bufferEnd - k
      {
        k := k + 1;
      }
    }

    /** Read what fits, and turn NUL bytes into newlines. */
    method Fill()
      requires Valid() && buffer != null && bufferEnd + 1 < buffer.Length && !stream.eof
      modifies this`bufferEnd, buffer, stream
      ensures Valid() && Whole() == old(Whole()) && old(Stored()) <= Stored()
      ensures |stream.data| < |old(stream.data)| || stream.eof
    {
      var chunk := stream.Read(buffer.Length - bufferEnd - 1);
      NlConcat(chunk, stream.data);
      ghost var before := buffer[..bufferEnd];
      if chunk != "" {
        Store(chunk);
        Replace(bufferEnd - |chunk|, before, chunk);
      }
    }

    method Store(chunk: string)
      requires buffer != null && bufferEnd + |chunk| < buffer.Length
      modifies this`bufferEnd, buffer
      ensures bufferEnd == old(bufferEnd) + |chunk| && buffer[bufferEnd] == NUL
      ensures buffer[..bufferEnd] == old(buffer[..bufferEnd]) + chunk
    {
      forall k | 0 <= k < |chunk| {
        buffer[bufferEnd + k] := chunk[k];
      }
      bufferEnd := bufferEnd + |chunk|;
      buffer[bufferEnd] := NUL;
    }

    /** Overwrite the NUL bytes of what was just read. */
    method Replace(from: nat, ghost before: string, ghost chunk: string)
      requires buffer != null && from == |before| && bufferEnd == from + |chunk| < buffer.Length
      requires buffer[bufferEnd] == NUL
      requires buffer[..bufferEnd] == before + chunk
      modifies buffer
      ensures buffer[..bufferEnd] == before + Nl(chunk) && buffer[bufferEnd] == NUL
    {
      ghost var was, nl := before + chunk, before + Nl(chunk);
      assert forall j :: 0 <= j < bufferEnd ==> nl[j] == if j >= from && was[j] == NUL then '\n' else was[j];
      hide Nl;
      var k := StrEnd(from);
      assert forall j :: 0 <= j < bufferEnd ==> buffer[j] == buffer[..bufferEnd][j];
      while k != bufferEnd
        invariant from <= k <= bufferEnd < buffer.Length && buffer[k] == NUL == buffer[bufferEnd]
        invariant forall j :: 0 <= j < k ==> buffer[j] == nl[j] && (j >= from ==> buffer[j] != NUL)
        invariant forall j :: k <= j < bufferEnd ==> buffer[j] == was[j]
        decreases bufferEnd - k
      {
        ghost var k0 := k;
        buffer[k] := '\n';
        k := StrEnd(from);
      }
    }

    /** `realloc` to a larger buffer. */
    method Grow()
      requires Valid() && buffer != null
      modifies this`buffer
      ensures Valid() && buffer != null && fresh(buffer) && Stored() == old(Stored()) && bufferEnd + 1 < buffer.Length
    {
      var bigger := new char[buffer.Length + BUF_STEP];
      forall k | 0 <= k < buffer.Length {
        bigger[k] := buffer[k];
      }
      assert bigger[..bufferEnd] == buffer[..bufferEnd];
      buffer := bigger;
    }

    /** Find the end of the next line, reading on as long as there is neither a newline nor an end of file. */
    method LineEnd() returns (end: nat)
      requires Valid() && buffer != null
      modifies this`buffer, this`bufferEnd, buffer, stream
      ensures Valid() && buffer != null && (buffer == old(buffer) || fresh(buffer))
      ensures Whole() == old(Whole()) && Pending() == old(Pending())
      ensures iter <= end <= bufferEnd && end - iter == Find(Pending(), '\n')
      ensures end == bufferEnd || old(stream.eof) ==> stream.eof
    {
      hide Nl, Find;
      var resize := false;
      while true
        invariant Valid() && buffer != null && (buffer == old(buffer) || fresh(buffer))
        invariant Whole() == old(Whole()) && Pending() == old(Pending())
        invariant old(stream.eof) ==> stream.eof
        decreases |stream.data|, !stream.eof, !resize
      {
        if resize {
          Grow();
          resize := false;
        }
        if buffer.Length - bufferEnd > 1 && !stream.eof {
          Fill();
        }
        end := Search();
        if end < bufferEnd || stream.eof {
          return;
        }
        resize := true;
      }
    }

    /** `strchr` for the newline: in the buffer, or known to be missing in all of the text. */
    method Search() returns (end: nat)
      requires Valid() && buffer != null
      ensures iter <= end <= bufferEnd
      ensures end < bufferEnd || stream.eof ==> end - iter == Find(Pending(), '\n')
    {
      end := iter;
      while buffer[end] != NUL && buffer[end] != '\n'
        invariant iter <= end <= bufferEnd && forall j :: iter <= j < end ==> buffer[j] != '\n'
        decreases bufferEnd - end
      {
        end := end + 1;
      }
      FindIs(Stored()[iter..], '\n', end - iter);
      if end < bufferEnd || stream.eof {
        EndFound(Stored(), Nl(stream.data), iter, end);
      }
    }

    /** Take the line from `iter` to `end` out of the buffer, or step over it when keeping. */
    method Consume(end: nat)
      requires Valid() && buffer != null && iter <= end <= bufferEnd
      modifies this`iter, this`bufferEnd, buffer
      ensures Valid() && Pending() == old(Whole())[end..] && (keep ==> Whole() == old(Whole()))
    {
      if !keep {
        ghost var rest := buffer[end..bufferEnd];
        if buffer[end] != NUL {
          bufferEnd := bufferEnd - (end - iter);
          forall k | 0 <= k < bufferEnd {
            buffer[k] := buffer[end + k];
          }
        } else {
          bufferEnd := 0;
        }
        buffer[bufferEnd] := NUL;
        iter := 0;
        assert buffer[..bufferEnd] == rest;
      } else {
        iter := end;
      }
    }

    method TakeLine(end: nat) returns (line: string)
      requires Valid() && buffer != null && iter <= end <= bufferEnd
      ensures line == Chomp(Stored()[iter..end])
    {
      var lineEnd := if end > iter && buffer[end - 1] == '\r' then end - 1 else end;
      line := buffer[iter..lineEnd];
      assert Stored()[iter..end] == buffer[iter..end];
    }

    /** The first call allocates the buffer. */
    method EnsureBuffer()
      requires Valid()
      modifies this`buffer, this`iter
      ensures Valid() && buffer != null && (buffer == old(buffer) || fresh(buffer))
      ensures Whole() == old(Whole()) && Pending() == old(Pending())
    {
      if buffer == null {
        buffer := new char[BUF_STEP];
        buffer[0] := NUL;
        iter := 0;
      }
    }

    /** `play_tree_parser_get_line`. */
    method GetLine() returns (r: Option<string>)
      requires Valid()
      modifies this`buffer, this`iter, this`bufferEnd, buffer, stream
      ensures Valid() && (buffer == old(buffer) || fresh(buffer)) && (old(buffer) != null ==> buffer != null)
      ensures r.None? <==> old(stream.eof && Pending() == "")
      ensures Pending() == AfterLine(old(Pending()))
      ensures r.Some? ==>
        r.value == FirstLine(old(Pending())) && (Find(old(Pending()), '\n') == |old(Pending())| ==> stream.eof)
      ensures r.Some? ==>
        var line := old(Pending())[..Find(old(Pending()), '\n')];
        r.value == if line != "" && line[|line| - 1] == '\r' then line[..|line| - 1] else line
      ensures old(stream.eof) ==> stream.eof
      ensures keep ==> Whole() == old(Whole())
    {
      hide Nl, Find, Chomp;
      EnsureBuffer();
      if stream.eof && (bufferEnd == 0 || buffer[iter] == NUL) {
        return None;
      }
      ChompIs(old(Pending())[..Find(old(Pending()), '\n')]);
      var line := NextLine();
      r := Some(line);
    }

    /** The line at `iter`, reading on as far as needed, and past it. */
    method NextLine() returns (line: string)
      requires Valid() && buffer != null
      modifies this`buffer, this`iter, this`bufferEnd, buffer, stream
      ensures Valid() && buffer != null && (buffer == old(buffer) || fresh(buffer))
      ensures Pending() == AfterLine(old(Pending())) && line == FirstLine(old(Pending()))
      ensures Find(old(Pending()), '\n') == |old(Pending())| || old(stream.eof) ==> stream.eof
      ensures keep ==> Whole() == old(Whole())
    {
      hide Nl, Find, Chomp;
      var end := LineEnd();
      LineIs(Stored(), Nl(stream.data), iter, end);
      line := TakeLine(end);
      if buffer[end] != NUL {
        end := end + 1;
      }
      Consume(end);
    }

    /** `play_tree_parser_reset`. */
    method Reset()
      requires Valid()
      modifies this`iter
      ensures Valid() && Whole() == old(Whole()) && Pending() == Whole()
    {
      iter := 0;
    }

    /** `play_tree_parser_stop_keeping`. */
    method StopKeeping()
      requires Valid()
      modifies this`keep, this`iter, this`bufferEnd, buffer
      ensures Valid() && !keep && Pending() == Whole() == old(Pending())
    {
      keep := false;
      if buffer != null && iter != 0 {
        ghost var rest := buffer[iter..bufferEnd];
        bufferEnd := bufferEnd - iter;
        forall k | 0 <= k < bufferEnd {
          buffer[k] := buffer[iter + k];
        }
        buffer[bufferEnd] := NUL;
        iter := 0;
        assert buffer[..bufferEnd] == rest;
      }
    }
  }

  /** The lines of a text, with at most one empty line more. */
  ghost predicate AreLines(lines: seq<string>, s: string) {
    lines == Lines(s) || lines == Lines(s) + [""]
  }

  lemma LinesStep(s: string)
    ensures s != "" ==> Lines(s) == [FirstLine(s)] + Lines(AfterLine(s)) && |AfterLine(s)| < |s|
    ensures s == "" ==> FirstLine(s) == "" == AfterLine(s) && Lines(s) == [] && Find(s, '\n') == |s|
  {}

  /** How far reading has come: the lines returned and those still pending make up the text, or the text is
      finished and its lines returned, with at most one empty line more. */
  ghost predicate Progress(lines: seq<string>, pending: string, s: string, eof: bool) {
    lines + Lines(pending) == Lines(s) || (AreLines(lines, s) && pending == "" && eof)
  }

  lemma ProgressStart(s: string, eof: bool)
    ensures Progress([], s, s, eof)
  {}

  lemma ProgressStep(lines: seq<string>, pending: string, s: string, eof: bool, eof': bool)
    requires Progress(lines, pending, s, eof) && !(eof && pending == "") && (pending == "" ==> eof')
    ensures Progress(lines + [FirstLine(pending)], AfterLine(pending), s, eof')
  {
    LinesStep(pending);
    assert (lines + [FirstLine(pending)]) + Lines(AfterLine(pending)) ==
        lines + ([FirstLine(pending)] + Lines(AfterLine(pending)));
    hide FirstLine, AfterLine, Lines;
  }

  lemma ProgressEnd(first: seq<string>, rest: seq<string>, pending: string, s: string, eof: bool)
    requires Progress(first, pending, s, eof) && AreLines(rest, pending) && (eof && pending == "" ==> rest == [])
    ensures AreLines(first + rest, s)
  {
    assert first + (Lines(pending) + [""]) == (first + Lines(pending)) + [""];
    assert first + [] == first;
  }

  /** The lines that are left, or at most so many of them. */
  method ReadSome(p: Reader, limit: Option<nat>) returns (lines: seq<string>, more: bool)
    requires p.Valid()
    modifies p`buffer, p`iter, p`bufferEnd, p.buffer, p.stream
    ensures p.Valid() && (p.buffer == old(p.buffer) || fresh(p.buffer))
    ensures Progress(lines, p.Pending(), old(p.Pending()), p.stream.eof)
    ensures more ==> limit.Some? && |lines| == limit.value
    ensures !more ==> p.Pending() == "" && p.stream.eof
    ensures old(p.stream.eof) ==> p.stream.eof
    ensures old(p.Pending() == "" && p.stream.eof) ==> lines == []
    ensures p.keep ==> p.Whole() == old(p.Whole())
  {
    hide *;
    lines, more := [], true;
    ProgressStart(p.Pending(), p.stream.eof);
    while more && (limit.None? || |lines| < limit.value)
      invariant p.Valid() && (p.buffer == old(p.buffer) || fresh(p.buffer)) && (limit.Some? ==> |lines| <= limit.value)
      invariant p.keep ==> p.Whole() == old(p.Whole())
      invariant old(p.stream.eof) ==> p.stream.eof
      invariant old(p.Pending() == "" && p.stream.eof) ==> lines == [] && p.Pending() == ""
      invariant Progress(lines, p.Pending(), old(p.Pending()), p.stream.eof)
      invariant !more ==> p.Pending() == "" && p.stream.eof
      decreases |p.Pending()|, !p.stream.eof, more
    {
      more, lines := ReadOne(p, lines, old(p.Pending()));
    }
  }

  /** One more line, if there is one. */
  method ReadOne(p: Reader, lines: seq<string>, ghost s: string) returns (more: bool, lines': seq<string>)
    requires p.Valid() && Progress(lines, p.Pending(), s, p.stream.eof)
    modifies p`buffer, p`iter, p`bufferEnd, p.buffer, p.stream
    ensures p.Valid() && (p.buffer == old(p.buffer) || fresh(p.buffer))
    ensures Progress(lines', p.Pending(), s, p.stream.eof)
    ensures p.keep ==> p.Whole() == old(p.Whole())
    ensures old(p.stream.eof) ==> p.stream.eof
    ensures old(p.Pending() == "" && p.stream.eof) ==> lines' == lines && p.Pending() == ""
    ensures !more ==> p.Pending() == "" && p.stream.eof && lines' == lines
    ensures more ==> |lines'| == |lines| + 1
    ensures |p.Pending()| <= |old(p.Pending())|
    ensures more && |p.Pending()| == |old(p.Pending())| ==> p.stream.eof && !old(p.stream.eof)
  {
    hide *;
    LinesStep(p.Pending());
    ghost var pending, eof := p.Pending(), p.stream.eof;
    var r := p.GetLine();
    if r.None? {
      return false, lines;
    }
    ProgressStep(lines, pending, s, eof, p.stream.eof);
    more, lines' := true, lines + [r.value];
  }

  /** All the lines that are left. */
  method ReadAll(p: Reader) returns (lines: seq<string>)
    requires p.Valid()
    modifies p`buffer, p`iter, p`bufferEnd, p.buffer, p.stream
    ensures p.Valid() && (p.buffer == old(p.buffer) || fresh(p.buffer))
    ensures AreLines(lines, old(p.Pending())) && p.Pending() == "" && p.stream.eof
    ensures old(p.Pending() == "" && p.stream.eof) ==> lines == []
    ensures p.keep ==> p.Whole() == old(p.Whole())
  {
    var more;
    lines, more := ReadSome(p, None);
  }

  /** Detecting a format: read all lines, reset, and read the same lines again. */
  method Reread(p: Reader) returns (first: seq<string>, second: seq<string>)
    requires p.Valid() && p.keep && p.iter == 0
    modifies p`buffer, p`iter, p`bufferEnd, p.buffer, p.stream
    ensures p.Valid() && AreLines(first, old(p.Pending())) && AreLines(second, old(p.Pending()))
  {
    assert p.Pending() == p.Whole();
    hide *;
    first := ReadAll(p);
    p.Reset();
    second := ReadAll(p);
  }

  /** Once a format is known the reader stops keeping what it returned: no line is lost or returned twice. */
  method ReadThenStop(p: Reader, n: nat) returns (first: seq<string>, rest: seq<string>)
    requires p.Valid()
    modifies p`buffer, p`iter, p`bufferEnd, p`keep, p.buffer, p.stream
    ensures p.Valid() && !p.keep && AreLines(first + rest, old(p.Pending()))
  {
    hide *;
    var more;
    first, more := ReadSome(p, Some(n));
    p.StopKeeping();
    ghost var pending := p.Pending();
    ghost var eof := p.stream.eof;
    rest := ReadAll(p);
    ProgressEnd(first, rest, pending, old(p.Pending()), eof);
  }
}
