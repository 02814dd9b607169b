/** Splitting a reply into message bubbles at marker lines of three or more dashes. White space is the
    space, the tab and the newline. */
module SplitReply {

  const MAX_CHUNKS := 4

  predicate White(c: char) {
    c == ' ' || c == '\t' || c == '\n'
  }

  // ----- Trimming -----

  function TrimLeft(s: string): string {
    if s != "" && White(s[0]) then TrimLeft(s[1..]) else s
  }

  function TrimRight(s: string): string {
    if s != "" && White(s[|s| - 1]) then TrimRight(s[..|s| - 1]) else s
  }

  function Trim(s: string): string {
    TrimRight(TrimLeft(s))
  }

  /** Non-empty, with something visible at both ends. */
  predicate Trimmed(s: string) {
    s != "" && !White(s[0]) && !White(s[|s| - 1])
  }

  lemma {:induction false} TrimRightEnd(s: string)
    ensures TrimRight(s) == "" || !White(TrimRight(s)[|TrimRight(s)| - 1])
    ensures TrimRight(s) <= s && forall i | |TrimRight(s)| <= i < |s| :: White(s[i])
  {
    if s != "" && White(s[|s| - 1]) {
      TrimRightEnd(s[..|s| - 1]);
    }
  }

  lemma {:induction false} TrimLeftStart(s: string)
    ensures TrimLeft(s) == "" || !White(TrimLeft(s)[0])
  {
    if s != "" && White(s[0]) {
      TrimLeftStart(s[1..]);
    }
  }

  lemma TrimIsTrimmed(s: string)
    ensures Trim(s) == "" || Trimmed(Trim(s))
  {
    TrimLeftStart(s);
    TrimRightEnd(TrimLeft(s));
  }

  lemma TrimmedStays(s: string)
    requires Trimmed(s)
    ensures Trim(s) == s
  {
  }

  /** White space at the end does not change what trimming leaves. */
  lemma {:induction false} TrimLeftSnoc(s: string, c: char)
    requires White(c)
    ensures TrimLeft(s + [c]) == if TrimLeft(s) == "" then "" else TrimLeft(s) + [c]
  {
    if s == "" {
      assert (s + [c])[1..] == "";
    } else if White(s[0]) {
      TrimLeftSnoc(s[1..], c);
      assert (s + [c])[1..] == s[1..] + [c];
    }
  }

  lemma TrimSnoc(s: string, c: char)
    requires White(c)
    ensures Trim(s + [c]) == Trim(s)
  {
    TrimLeftSnoc(s, c);
    var t := TrimLeft(s);
    if t != "" {
      assert (t + [c])[..|t|] == t;
    }
  }

  // ----- Lines -----

  /** One more character in front of, or behind, a text given by its lines. */
  function Prepend(c: char, lines: seq<string>): (r: seq<string>)
    requires lines != []
    ensures r != []
  {
    if c == '\n' then [""] + lines else [[c] + lines[0]] + lines[1..]
  }

  function Append(lines: seq<string>, c: char): (r: seq<string>)
    requires lines != []
    ensures r != []
  {
    if c == '\n' then lines + [""] else lines[..|lines| - 1] + [lines[|lines| - 1] + [c]]
  }

  /** `text.split("\\n")` */
  function Lines(s: string): (r: seq<string>)
    ensures r != []
  {
    if s == "" then [""] else Prepend(s[0], Lines(s[1..]))
  }

  /** `lines.join("\\n")` */
  function Join(lines: seq<string>): string {
    if lines == [] then ""
    else if |lines| == 1 then lines[0]
    else lines[0] + "\n" + Join(lines[1..])
  }

  lemma PrependAppend(x: char, lines: seq<string>, c: char)
    requires lines != []
    ensures Append(Prepend(x, lines), c) == Prepend(x, Append(lines, c))
  {
    if c == '\n' {
      assert x != '\n' ==> (lines + [""])[1..] == lines[1..] + [""];
    } else if x == '\n' {
      AppendBehind("", lines, c);
    } else {
      PrependAppendVisible(x, lines, c);
    }
  }

  lemma PrependAppendVisible(x: char, lines: seq<string>, c: char)
    requires lines != [] && c != '\n' && x != '\n'
    ensures Append(Prepend(x, lines), c) == Prepend(x, Append(lines, c))
  {
    var first, rest := lines[0], lines[1..];
    if rest == [] {
      assert [x] + (first + [c]) == ([x] + first) + [c];
    } else {
      AppendBehind([x] + first, rest, c);
      AppendBehind(first, rest, c);
      assert lines == [first] + rest;
    }
  }

  lemma AppendBehind(first: string, rest: seq<string>, c: char)
    requires rest != [] && c != '\n'
    ensures Append([first] + rest, c) == [first] + Append(rest, c)
  {
  }

  lemma {:induction false} LinesSnoc(s: string, c: char)
    ensures Lines(s + [c]) == Append(Lines(s), c)
  {
    if s == "" {
      assert (s + [c])[1..] == "" && s + [c] == [c];
      assert [c] + "" == [c] == "" + [c];
    } else {
      LinesSnoc(s[1..], c);
      assert (s + [c])[1..] == s[1..] + [c];
      PrependAppend(s[0], Lines(s[1..]), c);
    }
  }

  lemma PrependConcat(x: char, a: seq<string>, b: seq<string>)
    requires a != []
    ensures Prepend(x, a + b) == Prepend(x, a) + b
  {
  }

  lemma {:induction false} LinesAppend(a: string, b: string)
    ensures Lines(a + "\n" + b) == Lines(a) + Lines(b)
  {
    if a == "" {
      assert (a + "\n" + b)[1..] == b;
    } else {
      LinesAppend(a[1..], b);
      assert (a + "\n" + b)[1..] == a[1..] + "\n" + b;
      PrependConcat(a[0], Lines(a[1..]), Lines(b));
    }
  }

  predicate OneLine(s: string) {
    '\n' !in s
  }

  lemma {:induction false} LinesOfOneLine(s: string)
    requires OneLine(s)
    ensures Lines(s) == [s]
  {
    if s != "" {
      LinesOfOneLine(s[1..]);
      assert s == [s[0]] + s[1..];
    }
  }

  lemma {:induction false} LinesAreOneLine(s: string)
    ensures forall l | l in Lines(s) :: OneLine(l)
  {
    if s != "" {
      LinesAreOneLine(s[1..]);
      var rest := Lines(s[1..]);
      assert rest[0] in rest;
      assert forall i | 0 < i < |Lines(s)| :: Lines(s)[i] in rest;
    }
  }

  lemma {:induction false} LinesOfJoin(lines: seq<string>)
    requires lines != [] && forall l | l in lines :: OneLine(l)
    ensures Lines(Join(lines)) == lines
  {
    LinesOfOneLine(lines[0]);
    if |lines| > 1 {
      LinesOfJoin(lines[1..]);
      LinesAppend(lines[0], Join(lines[1..]));
      assert lines == [lines[0]] + lines[1..];
    }
  }

  lemma JoinPrepend(c: char, lines: seq<string>)
    requires lines != []
    ensures Join(Prepend(c, lines)) == [c] + Join(lines)
  {
  }

  lemma {:induction false} JoinOfLines(s: string)
    ensures Join(Lines(s)) == s
  {
    if s != "" {
      JoinOfLines(s[1..]);
      JoinPrepend(s[0], Lines(s[1..]));
    }
  }

  // ----- Markers -----

  predicate Dashes(s: string) {
    forall i | 0 <= i < |s| :: s[i] == '-'
  }

  predicate Blanks(s: string) {
    forall i | 0 <= i < |s| :: s[i] == ' ' || s[i] == '\t'
  }

  predicate IsMarker(line: string) {
    |Trim(line)| >= 3 && Dashes(Trim(line))
  }

  lemma {:induction false} TrimLeftBlanks(a: string, s: string)
    requires Blanks(a)
    ensures TrimLeft(a + s) == TrimLeft(s)
  {
    if a == "" {
      assert a + s == s;
    } else {
      TrimLeftBlanks(a[1..], s);
      assert (a + s)[1..] == a[1..] + s;
    }
  }

  lemma {:induction false} TrimRightBlanks(s: string, b: string)
    requires Blanks(b) && (s == "" || !White(s[|s| - 1]))
    ensures TrimRight(s + b) == s
    decreases |b|
  {
    if b == "" {
      assert s + b == s;
    } else {
      TrimRightBlanks(s, b[..|b| - 1]);
      assert (s + b)[..|s + b| - 1] == s + b[..|b| - 1];
    }
  }

  lemma {:induction false} TrimLeftSplits(s: string) returns (a: string)
    requires OneLine(s)
    ensures s == a + TrimLeft(s) && Blanks(a)
  {
    if s != "" && White(s[0]) {
      a := TrimLeftSplits(s[1..]);
      a := [s[0]] + a;
    } else {
      a := "";
    }
  }

  lemma {:induction false} TrimRightSplits(s: string) returns (b: string)
    requires OneLine(s)
    ensures s == TrimRight(s) + b && Blanks(b)
  {
    if s != "" && White(s[|s| - 1]) {
      b := TrimRightSplits(s[..|s| - 1]);
      b := b + [s[|s| - 1]];
    } else {
      b := "";
    }
  }

  lemma MarkerSplits(line: string) returns (a: string, b: string)
    requires OneLine(line)
    ensures line == a + Trim(line) + b && Blanks(a) && Blanks(b)
  {
    a := TrimLeftSplits(line);
    assert OneLine(TrimLeft(line)) by {
      assert forall c | c in TrimLeft(line) :: c in line;
    }
    b := TrimRightSplits(TrimLeft(line));
  }

  lemma MatchTrims(a: string, d: string, b: string)
    requires Blanks(a) && |d| >= 3 && Dashes(d) && Blanks(b)
    ensures Trim(a + d + b) == d
  {
    assert a + d + b == a + (d + b);
    TrimLeftBlanks(a, d + b);
    TrimRightBlanks(d, b);
  }

  /** A marker is what `/^[ \\t]*-{3,}[ \\t]*$/` matches: blanks, at least three dashes, blanks. */
  lemma MarkerIsRegex(line: string)
    requires OneLine(line)
    ensures IsMarker(line) <==>
            exists a, d, b :: line == a + d + b && Blanks(a) && |d| >= 3 && Dashes(d) && Blanks(b)
  {
    if IsMarker(line) {
      var a, b := MarkerSplits(line);
      assert line == a + Trim(line) + b;
    } else if a, d, b :| line == a + d + b && Blanks(a) && |d| >= 3 && Dashes(d) && Blanks(b) {
      MatchTrims(a, d, b);
    }
  }

  ghost predicate NoMarker(lines: seq<string>) {
    forall i | 0 <= i < |lines| :: !IsMarker(lines[i])
  }

  lemma {:induction false} TrimLeftNoMarker(s: string)
    requires NoMarker(Lines(s))
    ensures NoMarker(Lines(TrimLeft(s)))
  {
    if s != "" && White(s[0]) {
      var rest := Lines(s[1..]);
      if s[0] == '\n' {
        assert rest == Lines(s)[1..];
      } else {
        assert Lines(s)[0][1..] == rest[0];
        assert !IsMarker(Lines(s)[0]);
        assert rest == [rest[0]] + Lines(s)[1..];
      }
      TrimLeftNoMarker(s[1..]);
    }
  }

  lemma {:induction false} TrimRightNoMarker(s: string)
    requires NoMarker(Lines(s))
    ensures NoMarker(Lines(TrimRight(s)))
  {
    if s != "" && White(s[|s| - 1]) {
      var t, c := s[..|s| - 1], s[|s| - 1];
      assert s == t + [c];
      LinesSnoc(t, c);
      var last := |Lines(t)| - 1;
      if c == '\n' {
        assert Lines(t) == Lines(s)[..last + 1];
      } else {
        TrimSnoc(Lines(t)[last], c);
        assert !IsMarker(Lines(s)[last]);
        assert forall i | 0 <= i < last :: Lines(t)[i] == Lines(s)[i];
      }
      TrimRightNoMarker(t);
    }
  }

  // ----- Splitting -----

  /** The `flush` closure: the collected lines become a chunk, unless nothing visible is left. */
  function Flush(chunks: seq<string>, current: seq<string>): seq<string> {
    if Trim(Join(current)) == "" then chunks else chunks + [Trim(Join(current))]
  }

  /** Chunks and collected lines after the loop has gone over `lines`. */
  function Scan(lines: seq<string>): (seq<string>, seq<string>) {
    if lines == [] then ([], [])
    else
      var (chunks, current) := Scan(lines[..|lines| - 1]);
      var line := lines[|lines| - 1];
      if IsMarker(line) then (Flush(chunks, current), []) else (chunks, current + [line])
  }

  function AllChunks(text: string): seq<string> {
    var (chunks, current) := Scan(Lines(text));
    Flush(chunks, current)
  }

  /** The surplus beyond four bubbles goes into the last one. */
  function Cap(chunks: seq<string>): seq<string> {
    if |chunks| <= MAX_CHUNKS then chunks
    else chunks[..MAX_CHUNKS - 1] + [Join(chunks[MAX_CHUNKS - 1..])]
  }

  function Split(text: string): seq<string> {
    Cap(AllChunks(text))
  }

  method SplitText(text: string) returns (kept: seq<string>)
    ensures kept == Split(text)
  {
    var chunks: seq<string> := [];
    var current: seq<string> := [];
    var lines := Lines(text);
    for i := 0 to |lines|
      invariant Scan(lines[..i]) == (chunks, current)
    {
      assert lines[..i + 1][..i] == lines[..i];
      if IsMarker(lines[i]) {
        var chunk := Trim(Join(current));
        if chunk != "" {
          chunks := chunks + [chunk];
        }
        current := [];
      } else {
        current := current + [lines[i]];
      }
    }
    assert lines[..|lines|] == lines;
    var chunk := Trim(Join(current));
    if chunk != "" {
      chunks := chunks + [chunk];
    }
    if |chunks| <= MAX_CHUNKS {
      return chunks;
    }
    kept := chunks[..MAX_CHUNKS - 1];
    kept := kept + [Join(chunks[MAX_CHUNKS - 1..])];
  }

  // ----- The shape of the result -----

  ghost predicate GoodChunk(c: string) {
    Trimmed(c) && NoMarker(Lines(c))
  }

  ghost predicate GoodChunks(chunks: seq<string>) {
    forall i | 0 <= i < |chunks| :: GoodChunk(chunks[i])
  }

  lemma FlushGood(chunks: seq<string>, current: seq<string>)
    requires GoodChunks(chunks) && NoMarker(current) && forall l | l in current :: OneLine(l)
    ensures GoodChunks(Flush(chunks, current))
  {
    var text := Join(current);
    if current != [] {
      LinesOfJoin(current);
    }
    TrimIsTrimmed(text);
    TrimLeftNoMarker(text);
    TrimRightNoMarker(TrimLeft(text));
  }

  lemma {:induction false} ScanGood(lines: seq<string>)
    requires forall l | l in lines :: OneLine(l)
    ensures var (chunks, current) := Scan(lines);
      GoodChunks(chunks) && NoMarker(current) && forall l | l in current :: OneLine(l)
  {
    if lines != [] {
      var front := lines[..|lines| - 1];
      ScanGood(front);
      FlushGood(Scan(front).0, Scan(front).1);
    }
  }

  lemma {:induction false} JoinGood(chunks: seq<string>)
    requires chunks != [] && GoodChunks(chunks)
    ensures GoodChunk(Join(chunks))
  {
    if |chunks| > 1 {
      JoinGood(chunks[1..]);
      LinesAppend(chunks[0], Join(chunks[1..]));
    }
  }

  /** At most four chunks, each non-empty and trimmed, none with a marker line in it. */
  lemma {:induction false} SplitShape(text: string)
    ensures |Split(text)| <= MAX_CHUNKS && GoodChunks(Split(text))
  {
    LinesAreOneLine(text);
    ScanGood(Lines(text));
    FlushGood(Scan(Lines(text)).0, Scan(Lines(text)).1);
    var all := AllChunks(text);
    if |all| > MAX_CHUNKS {
      JoinGood(all[MAX_CHUNKS - 1..]);
    }
  }

  // ----- Nothing visible is lost -----

  function Visible(s: string): string {
    if s == "" then "" else Visible(s[..|s| - 1]) + if White(s[|s| - 1]) then "" else [s[|s| - 1]]
  }

  function VisibleAll(parts: seq<string>): string {
    if parts == [] then "" else VisibleAll(parts[..|parts| - 1]) + Visible(parts[|parts| - 1])
  }

  /** The lines that are not markers. */
  function Kept(lines: seq<string>): seq<string> {
    if lines == [] then []
    else Kept(lines[..|lines| - 1]) + if IsMarker(lines[|lines| - 1]) then [] else [lines[|lines| - 1]]
  }

  lemma {:induction false} VisibleAppend(a: string, b: string)
    ensures Visible(a + b) == Visible(a) + Visible(b)
  {
    if b == "" {
      assert a + b == a;
    } else {
      VisibleAppend(a, b[..|b| - 1]);
      assert (a + b)[..|a + b| - 1] == a + b[..|b| - 1];
    }
  }

  lemma VisibleAllSnoc(parts: seq<string>, part: string)
    ensures VisibleAll(parts + [part]) == VisibleAll(parts) + Visible(part)
  {
    assert (parts + [part])[..|parts|] == parts;
  }

  lemma {:induction false} VisibleAllAppend(a: seq<string>, b: seq<string>)
    ensures VisibleAll(a + b) == VisibleAll(a) + VisibleAll(b)
  {
    if b == [] {
      assert a + b == a;
    } else {
      var front, last := b[..|b| - 1], b[|b| - 1];
      VisibleAllAppend(a, front);
      VisibleAllSnoc(a + front, last);
      assert a + b == (a + front) + [last];
      Regroup(VisibleAll(a), VisibleAll(front), Visible(last));
    }
  }

  lemma Regroup(a: string, b: string, c: string)
    ensures (a + b) + c == a + (b + c)
  {
  }

  lemma VisibleOne(s: string)
    ensures VisibleAll([s]) == Visible(s)
  {
  }

  lemma {:induction false} VisibleTrimLeft(s: string)
    ensures Visible(TrimLeft(s)) == Visible(s)
  {
    if s != "" && White(s[0]) {
      VisibleTrimLeft(s[1..]);
      VisibleAppend([s[0]], s[1..]);
      assert s == [s[0]] + s[1..];
      assert [s[0]][..0] == "";
    }
  }

  lemma {:induction false} VisibleTrimRight(s: string)
    ensures Visible(TrimRight(s)) == Visible(s)
  {
    if s != "" && White(s[|s| - 1]) {
      VisibleTrimRight(s[..|s| - 1]);
    }
  }

  lemma VisibleJoinStep(first: string, rest: string)
    ensures Visible(first + "\n" + rest) == Visible(first) + Visible(rest)
  {
    VisibleAppend(first + "\n", rest);
    VisibleAppend(first, "\n");
    assert "\n"[..0] == "";
  }

  lemma {:induction false} VisibleJoin(lines: seq<string>)
    ensures Visible(Join(lines)) == VisibleAll(lines)
  {
    if lines != [] {
      VisibleOne(lines[0]);
      VisibleAllAppend([lines[0]], lines[1..]);
      assert lines == [lines[0]] + lines[1..];
      if |lines| > 1 {
        VisibleJoin(lines[1..]);
        VisibleJoinStep(lines[0], Join(lines[1..]));
      }
    }
  }

  lemma FlushKeeps(chunks: seq<string>, current: seq<string>)
    ensures VisibleAll(Flush(chunks, current)) == VisibleAll(chunks) + VisibleAll(current)
  {
    var text := Join(current);
    VisibleJoin(current);
    VisibleTrimLeft(text);
    VisibleTrimRight(TrimLeft(text));
    VisibleOne(Trim(text));
    VisibleAllAppend(chunks, [Trim(text)]);
  }

  lemma {:induction false} ScanKeeps(lines: seq<string>)
    ensures VisibleAll(Scan(lines).0) + VisibleAll(Scan(lines).1) == VisibleAll(Kept(lines))
  {
    if lines != [] {
      var front, line := lines[..|lines| - 1], lines[|lines| - 1];
      ScanKeeps(front);
      var (chunks, current) := Scan(front);
      FlushKeeps(chunks, current);
      VisibleOne(line);
      VisibleAllAppend(current, [line]);
      VisibleAllAppend(Kept(front), [line]);
      VisibleAllAppend(Kept(front), []);
    }
  }

  lemma {:induction false} AllChunksKeep(text: string)
    ensures VisibleAll(AllChunks(text)) == VisibleAll(Kept(Lines(text)))
  {
    ScanKeeps(Lines(text));
    FlushKeeps(Scan(Lines(text)).0, Scan(Lines(text)).1);
  }

  lemma FoldedTailKeeps(head: seq<string>, tail: seq<string>)
    ensures VisibleAll(head + [Join(tail)]) == VisibleAll(head + tail)
  {
    VisibleAllAppend(head, tail);
    VisibleAllAppend(head, [Join(tail)]);
    VisibleOne(Join(tail));
    VisibleJoin(tail);
  }

  lemma CapKeeps(chunks: seq<string>)
    ensures VisibleAll(Cap(chunks)) == VisibleAll(chunks)
  {
    if |chunks| > MAX_CHUNKS {
      var head, tail := chunks[..MAX_CHUNKS - 1], chunks[MAX_CHUNKS - 1..];
      FoldedTailKeeps(head, tail);
      assert chunks == head + tail;
    }
  }

  /** The chunks together show exactly what the unmarked lines show, in the same order. */
  lemma {:induction false} SplitKeepsContent(text: string)
    ensures VisibleAll(Split(text)) == VisibleAll(Kept(Lines(text)))
  {
    AllChunksKeep(text);
    CapKeeps(AllChunks(text));
  }

  // ----- Round trip -----

  /** The chunks as one text, with a marker line between any two. */
  function Rejoin(chunks: seq<string>, marker: string): string {
    if chunks == [] then ""
    else if |chunks| == 1 then chunks[0]
    else Rejoin(chunks[..|chunks| - 1], marker) + "\n" + marker + "\n" + chunks[|chunks| - 1]
  }

  lemma {:induction false} ScanUnmarked(before: seq<string>, lines: seq<string>)
    requires NoMarker(lines)
    ensures Scan(before + lines) == (Scan(before).0, Scan(before).1 + lines)
  {
    if lines == [] {
      assert before + lines == before && Scan(before).1 + lines == Scan(before).1;
    } else {
      var front, line := lines[..|lines| - 1], lines[|lines| - 1];
      ScanUnmarked(before, front);
      assert (before + lines)[..|before + lines| - 1] == before + front;
      assert (Scan(before).1 + front) + [line] == Scan(before).1 + lines;
    }
  }

  lemma ScanMarker(before: seq<string>, marker: string)
    requires IsMarker(marker)
    ensures Scan(before + [marker]) == (Flush(Scan(before).0, Scan(before).1), [])
  {
  }

  lemma FlushChunk(chunks: seq<string>, c: string)
    requires GoodChunk(c)
    ensures Flush(chunks, Lines(c)) == chunks + [c]
  {
    JoinOfLines(c);
    TrimmedStays(c);
  }

  /** A marker line and one more chunk behind a text whose last chunk is still being collected. */
  lemma ScanNextChunk(lines: seq<string>, chunks: seq<string>, c: string, marker: string, next: string)
    requires Scan(lines) == (chunks, Lines(c)) && GoodChunk(c) && GoodChunk(next) && IsMarker(marker)
    ensures Scan(lines + [marker] + Lines(next)) == (chunks + [c], Lines(next))
  {
    ScanMarker(lines, marker);
    FlushChunk(chunks, c);
    ScanUnmarked(lines + [marker], Lines(next));
    assert [] + Lines(next) == Lines(next);
  }

  lemma {:induction false} LinesWithMarker(text: string, marker: string, next: string)
    requires OneLine(marker)
    ensures Lines(text + "\n" + marker + "\n" + next) == Lines(text) + [marker] + Lines(next)
  {
    LinesAppend(text + "\n" + marker, next);
    LinesAppend(text, marker);
    LinesOfOneLine(marker);
  }

  lemma ScanSingle(c: string)
    requires GoodChunk(c)
    ensures Scan(Lines(c)) == ([], Lines(c))
  {
    ScanUnmarked([], Lines(c));
    assert [] + Lines(c) == Lines(c);
  }

  lemma {:induction false} ScanOfNextRejoin(text: string, chunks: seq<string>, c: string, marker: string, next: string)
    requires Scan(Lines(text)) == (chunks, Lines(c))
    requires GoodChunk(c) && GoodChunk(next) && IsMarker(marker) && OneLine(marker)
    ensures Scan(Lines(text + "\n" + marker + "\n" + next)) == (chunks + [c], Lines(next))
  {
    LinesWithMarker(text, marker, next);
    ScanNextChunk(Lines(text), chunks, c, marker, next);
  }

  lemma {:induction false} ScanOfRejoin(chunks: seq<string>, marker: string)
    requires chunks != [] && GoodChunks(chunks) && IsMarker(marker) && OneLine(marker)
    ensures Scan(Lines(Rejoin(chunks, marker))) == (chunks[..|chunks| - 1], Lines(chunks[|chunks| - 1]))
  {
    var front, last := chunks[..|chunks| - 1], chunks[|chunks| - 1];
    if |chunks| == 1 {
      ScanSingle(last);
    } else {
      ScanOfRejoin(front, marker);
      ScanOfNextRejoin(Rejoin(front, marker), front[..|front| - 1], front[|front| - 1], marker, last);
      assert front[..|front| - 1] + [front[|front| - 1]] == front;
    }
  }

  lemma AllChunksOfRejoin(chunks: seq<string>, marker: string)
    requires chunks != [] && GoodChunks(chunks) && IsMarker(marker) && OneLine(marker)
    ensures AllChunks(Rejoin(chunks, marker)) == chunks
  {
    ScanOfRejoin(chunks, marker);
    FlushChunk(chunks[..|chunks| - 1], chunks[|chunks| - 1]);
  }

  lemma EmptyTextHasNoChunks()
    ensures AllChunks("") == []
  {
  }

  /** At most four well-formed chunks survive being joined and split again. */
  lemma SplitOfRejoin(chunks: seq<string>, marker: string)
    requires |chunks| <= MAX_CHUNKS && GoodChunks(chunks) && IsMarker(marker) && OneLine(marker)
    ensures Split(Rejoin(chunks, marker)) == chunks
  {
    if chunks == [] {
      EmptyTextHasNoChunks();
    } else {
      AllChunksOfRejoin(chunks, marker);
    }
  }

  function LinesOfAll(parts: seq<string>): seq<string> {
    if parts == [] then [] else Lines(parts[0]) + LinesOfAll(parts[1..])
  }

  lemma {:induction false} LinesOfJoined(parts: seq<string>)
    requires parts != []
    ensures Lines(Join(parts)) == LinesOfAll(parts)
  {
    if |parts| > 1 {
      LinesOfJoined(parts[1..]);
      LinesAppend(parts[0], Join(parts[1..]));
    }
  }

  /** Of more than four, the first three keep their own bubbles, and the last bubble holds the lines of the fourth
      and of all that follow, in order. */
  lemma SurplusGoesLast(chunks: seq<string>, marker: string)
    requires |chunks| > 4 && GoodChunks(chunks) && IsMarker(marker) && OneLine(marker)
    ensures var kept := Split(Rejoin(chunks, marker));
      |kept| == 4 && kept[..3] == chunks[..3] && Lines(kept[3]) == LinesOfAll(chunks[3..])
  {
    AllChunksOfRejoin(chunks, marker);
    LinesOfJoined(chunks[3..]);
  }

  /** Splitting is stable: the chunks of any text, joined with marker lines, split into themselves. */
  lemma {:induction false} SplitTwice(text: string, marker: string)
    requires IsMarker(marker) && OneLine(marker)
    ensures Split(Rejoin(Split(text), marker)) == Split(text)
  {
    SplitShape(text);
    SplitOfRejoin(Split(text), marker);
  }
}
