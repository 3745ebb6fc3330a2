/** Splitting the provider's bytes into lines (src/provider.rs, the drain loop of `parse_sse`). */
module Lines {

  newtype byte = x: int | 0 <= x < 256

  const LF: byte := 10
  const CR: byte := 13

  /** Index of the first newline. */
  function Position(b: seq<byte>): (p: nat)
    requires LF in b
    ensures p < |b| && b[p] == LF && LF !in b[..p]
  {
    if b[0] == LF then 0 else
      var q := Position(b[1..]);
      assert b[..q + 1] == [b[0]] + b[1..][..q];
      q + 1
  }

  /** The complete lines of `b`, without their newlines. */
  function Complete(b: seq<byte>): seq<seq<byte>> {
    if LF !in b then [] else
      var p := Position(b);
      [b[..p]] + Complete(b[p + 1..])
  }

  /** What follows the last newline. */
  function Rest(b: seq<byte>): (r: seq<byte>)
    ensures LF !in r
    ensures |r| <= |b|
  {
    if LF !in b then b else Rest(b[Position(b) + 1..])
  }

  function Join(lines: seq<seq<byte>>): seq<byte> {
    if lines == [] then [] else lines[0] + [LF] + Join(lines[1..])
  }

  function Flatten(parts: seq<seq<byte>>): seq<byte> {
    if parts == [] then [] else parts[0] + Flatten(parts[1..])
  }

  lemma PositionIs(b: seq<byte>, p: nat)
    requires p < |b| && b[p] == LF && LF !in b[..p]
    ensures LF in b && Position(b) == p
  {
    assert b[Position(b)] == LF;
  }

  /** The first line and what follows it. */
  lemma FirstComplete(b: seq<byte>, line: seq<byte>, tail: seq<byte>)
    requires LF !in line && b == line + ([LF] + tail)
    ensures Complete(b) == [line] + Complete(tail)
    ensures Rest(b) == Rest(tail)
  {
    assert b[|line|] == LF && b[..|line|] == line && b[|line| + 1..] == tail;
    PositionIs(b, |line|);
  }

  lemma NoNewline(b: seq<byte>)
    requires LF !in b
    ensures Complete(b) == [] && Rest(b) == b
  {
  }

  lemma JoinCons(line: seq<byte>, lines: seq<seq<byte>>)
    ensures Join([line] + lines) == line + ([LF] + Join(lines))
  {
    assert ([line] + lines)[1..] == lines;
  }

  lemma {:induction false} JoinAppend(xs: seq<seq<byte>>, ys: seq<seq<byte>>)
    ensures Join(xs + ys) == Join(xs) + Join(ys)
  {
    if xs == [] {
      assert xs + ys == ys;
    } else {
      var x, rest := xs[0], xs[1..];
      assert xs == [x] + rest && xs + ys == [x] + (rest + ys);
      JoinCons(x, rest);
      JoinCons(x, rest + ys);
      JoinAppend(rest, ys);
    }
  }

  lemma Associative<T>(a: seq<T>, b: seq<T>, c: seq<T>)
    ensures (a + b) + c == a + (b + c)
  {
  }

  lemma JoinFirst(line: seq<byte>, lines: seq<seq<byte>>, rest: seq<byte>)
    ensures Join([line] + lines) + rest == line + ([LF] + (Join(lines) + rest))
  {
    JoinCons(line, lines);
    Associative(line, [LF] + Join(lines), rest);
    Associative([LF], Join(lines), rest);
  }

  lemma CutAt(b: seq<byte>, p: nat)
    requires p < |b| && b[p] == LF
    ensures b == b[..p] + ([LF] + b[p + 1..])
  {
  }

  predicate Bare(lines: seq<seq<byte>>) { forall l | l in lines :: LF !in l }

  lemma {:induction false} LinesAreBare(b: seq<byte>)
    ensures Bare(Complete(b))
    decreases |b|
  {
    if LF !in b {
      NoNewline(b);
    } else {
      var p := Position(b);
      CutAt(b, p);
      FirstComplete(b, b[..p], b[p + 1..]);
      LinesAreBare(b[p + 1..]);
    }
  }

  /** Nothing is lost or invented by the split ... */
  lemma {:induction false} SplitCovers(b: seq<byte>)
    ensures Join(Complete(b)) + Rest(b) == b && Bare(Complete(b))
    decreases |b|
  {
    LinesAreBare(b);
    if LF !in b {
      NoNewline(b);
      assert Join([]) + b == b;
    } else {
      var p := Position(b);
      var line, tail := b[..p], b[p + 1..];
      CutAt(b, p);
      FirstComplete(b, line, tail);
      JoinFirst(line, Complete(tail), Rest(tail));
      SplitCovers(tail);
    }
  }

  /** ... and it is the only split into newline-free lines and a newline-free rest. */
  lemma {:induction false} SplitUnique(lines: seq<seq<byte>>, rest: seq<byte>)
    requires Bare(lines) && LF !in rest
    ensures Complete(Join(lines) + rest) == lines && Rest(Join(lines) + rest) == rest
  {
    if lines == [] {
      assert Join(lines) + rest == rest;
      NoNewline(rest);
    } else {
      var line, later := lines[0], lines[1..];
      assert lines == [line] + later;
      SplitUnique(later, rest);
      JoinFirst(line, later, rest);
      FirstComplete(Join(lines) + rest, line, Join(later) + rest);
    }
  }

  /** Reading more bytes keeps the lines already complete and resumes from the rest. */
  lemma SplitAppend(a: seq<byte>, b: seq<byte>)
    ensures Complete(a + b) == Complete(a) + Complete(Rest(a) + b)
    ensures Rest(a + b) == Rest(Rest(a) + b)
  {
    var open := Rest(a);
    var early, late := Complete(a), Complete(open + b);
    SplitCovers(a);
    SplitCovers(open + b);
    SplitUnique(early + late, Rest(open + b)) by { BareAppend(early, late); }
    JoinAppend(early, late);
    Associative(Join(early), Join(late), Rest(open + b));
    Associative(Join(early), open, b);
  }

  lemma BareAppend(xs: seq<seq<byte>>, ys: seq<seq<byte>>)
    requires Bare(xs) && Bare(ys)
    ensures Bare(xs + ys)
  {
  }

  /** The first newline of the buffer is the first newline of the input. */
  lemma FirstLine(buffer: seq<byte>, tail: seq<byte>)
    requires LF in buffer
    ensures var p := Position(buffer);
            Complete(buffer + tail) == [buffer[..p]] + Complete(buffer[p + 1..] + tail)
  {
    var p := Position(buffer);
    assert buffer + tail == buffer[..p] + ([LF] + (buffer[p + 1..] + tail));
    FirstComplete(buffer + tail, buffer[..p], buffer[p + 1..] + tail);
  }
}
