/** Multi-line text placement (src/draw_helpers.cpp): `draw_chars` splits a
    string at '\n' and draws the pieces one row apart, the last one on the
    row-quantized anchor. */
module DrawHelpers {
  import opened Wrappers
  import opened Point2D
  import opened Canvas
  import opened Constants

  /** C++ integer division by a positive divisor, which truncates toward
      zero (Dafny's `/` is Euclidean). */
  function TruncDiv(a: int, b: int): (q: int)
    requires b > 0
    ensures 0 <= a ==> q * b <= a < q * b + b
    ensures a < 0 ==> q * b - b < a <= q * b
  {
    if a >= 0 then
      DivBounds(a, b);
      a / b
    else
      DivBounds(-a, b);
      -((-a) / b)
  }

  lemma DivBounds(a: nat, b: int)
    requires b > 0
    ensures (a / b) * b <= a < (a / b) * b + b
  {
  }

  /** `point.y / row_height * row_height`: the anchor row of a text. */
  function QuantizeRow(y: int): (r: int)
    ensures 0 <= y ==> r <= y < r + RowHeight
    ensures y < 0 ==> r - RowHeight < y <= r
  {
    TruncDiv(y, RowHeight) * RowHeight
  }

  /** The anchor row is a multiple of the row height. */
  lemma QuantizedRowIsMultiple(y: int)
    ensures QuantizeRow(y) % RowHeight == 0
  {
  }

  /** For a negative y the quantization goes up toward zero, not down: -1
      lands on row 0 although -4 is the largest multiple of 4 below it. */
  lemma QuantizeNegativeRoundsTowardZero()
    ensures QuantizeRow(-1) == 0 && QuantizeRow(-5) == -4
  {
  }

  /** `std::count(str.begin(), str.end(), '\n')`. */
  function CountNewlines(s: string): nat {
    multiset(s)['\n']
  }

  /** `std::string_view::find(c, from)`: the first position at or after
      `from` that holds `c`, or None for `npos`. */
  function Find(s: string, c: char, from: nat): (r: Option<nat>)
    decreases |s| - from
    ensures r.Some? ==> from <= r.value < |s| && s[r.value] == c
  {
    if from >= |s| then None
    else if s[from] == c then Some(from)
    else Find(s, c, from + 1)
  }

  /** Find returns the FIRST position holding `c`, and None only when no
      position from `from` on holds it. */
  lemma {:induction false} FindIsFirst(s: string, c: char, from: nat)
    decreases |s| - from
    ensures Find(s, c, from).Some? ==> forall k :: from <= k < Find(s, c, from).value ==> s[k] != c
    ensures Find(s, c, from).None? ==> forall k :: from <= k < |s| ==> s[k] != c
  {
    if from < |s| && s[from] != c {
      FindIsFirst(s, c, from + 1);
    }
  }

  /** The lines of `s[from..]`: the pieces between its '\n' characters,
      found the way draw_chars finds them, by searching from `from`. */
  function LinesFrom(s: string, from: nat): (lines: seq<string>)
    requires from <= |s|
    decreases |s| - from
    ensures |lines| >= 1
  {
    match Find(s, '\n', from)
    case None => [s[from..]]
    case Some(e) => [s[from..e]] + LinesFrom(s, e + 1)
  }

  /** The pieces put back together with '\n' between them. */
  function JoinLines(lines: seq<string>): string
    requires |lines| >= 1
  {
    if |lines| == 1 then lines[0] else lines[0] + "\n" + JoinLines(lines[1..])
  }

  predicate NoNewline(s: string) {
    '\n' !in s
  }

  /** A string with n newlines has n + 1 lines. */
  lemma {:induction false} LinesCount(s: string, from: nat)
    requires from <= |s|
    decreases |s| - from
    ensures |LinesFrom(s, from)| == CountNewlines(s[from..]) + 1
  {
    match Find(s, '\n', from)
    case None =>
      FindIsFirst(s, '\n', from);
      assert '\n' !in multiset(s[from..]);
    case Some(e) =>
      LinesCount(s, e + 1);
      FindIsFirst(s, '\n', from);
      assert s[from..] == s[from..e] + [s[e]] + s[e + 1..];
      assert '\n' !in multiset(s[from..e]);
      assert multiset(s[from..]) == multiset(s[from..e]) + multiset([s[e]]) + multiset(s[e + 1..]);
  }

  /** No line contains a '\n'. */
  lemma {:induction false} LinesHaveNoNewline(s: string, from: nat)
    requires from <= |s|
    decreases |s| - from
    ensures forall i :: 0 <= i < |LinesFrom(s, from)| ==> NoNewline(LinesFrom(s, from)[i])
  {
    match Find(s, '\n', from)
    case None =>
      FindIsFirst(s, '\n', from);
    case Some(e) =>
      FindIsFirst(s, '\n', from);
      LinesHaveNoNewline(s, e + 1);
  }

  /** Joining the lines gives the string back. */
  lemma {:induction false} JoinLinesOfLines(s: string, from: nat)
    requires from <= |s|
    decreases |s| - from
    ensures JoinLines(LinesFrom(s, from)) == s[from..]
  {
    match Find(s, '\n', from)
    case None =>
    case Some(e) =>
      JoinLinesOfLines(s, e + 1);
      assert LinesFrom(s, from)[1..] == LinesFrom(s, e + 1);
      assert s[from..] == s[from..e] + "\n" + s[e + 1..];
  }

  /** A character that does not occur is not found. */
  lemma {:induction false} FindNone(s: string, c: char, from: nat)
    requires c !in s
    decreases |s| - from
    ensures Find(s, c, from) == None
  {
    if from < |s| {
      FindNone(s, c, from + 1);
    }
  }

  /** Searching past a prefix is searching what follows it. */
  lemma {:induction false} FindPastPrefix(p: string, q: string, c: char, k: nat)
    requires k <= |q|
    decreases |q| - k
    ensures Find(p + q, c, |p| + k) == match Find(q, c, k)
                                       case None => None
                                       case Some(i) => Some(|p| + i)
  {
    if k < |q| {
      assert (p + q)[|p| + k] == q[k];
      FindPastPrefix(p, q, c, k + 1);
    }
  }

  /** The lines after a prefix are the lines of what follows it. */
  lemma {:induction false} LinesPastPrefix(p: string, q: string, k: nat)
    requires k <= |q|
    decreases |q| - k
    ensures LinesFrom(p + q, |p| + k) == LinesFrom(q, k)
  {
    FindPastPrefix(p, q, '\n', k);
    match Find(q, '\n', k)
    case None =>
      assert (p + q)[|p| + k..] == q[k..];
    case Some(e) =>
      assert (p + q)[|p| + k..|p| + e] == q[k..e];
      LinesPastPrefix(p, q, e + 1);
  }

  /** Splitting newline-free pieces joined by '\n' gives the pieces back. */
  lemma {:induction false} LinesOfJoinLines(lines: seq<string>)
    requires |lines| >= 1
    requires forall i :: 0 <= i < |lines| ==> NoNewline(lines[i])
    ensures LinesFrom(JoinLines(lines), 0) == lines
  {
    var s := JoinLines(lines);
    if |lines| == 1 {
      FindNone(s, '\n', 0);
    } else {
      var head, rest := lines[0], JoinLines(lines[1..]);
      assert s == (head + "\n") + rest;
      assert s[|head|] == '\n';
      assert forall k :: 0 <= k < |head| ==> s[k] == head[k];
      FindIsFirst(s, '\n', 0);
      assert Find(s, '\n', 0) == Some(|head|);
      assert s[..|head|] == head;
      LinesPastPrefix(head + "\n", rest, 0);
      LinesOfJoinLines(lines[1..]);
    }
  }

  /** The calls `draw_chars(canvas, point, color, str)` makes: line i of
      `str` at (point.x, top + i * row_height), where `top` lies one row
      above the quantized anchor per newline. */
  function DrawCharsSpec(point: Point2, color: Color, str: string): seq<Command> {
    var lines := LinesFrom(str, 0);
    var top := QuantizeRow(point.y) - CountNewlines(str) * RowHeight;
    seq(|lines|, i requires 0 <= i < |lines| => Text(point.x, top + i * RowHeight, lines[i], color))
  }

  /** What the calls of draw_chars are: one per '\n' plus one, all at the
      given x and in the given colour, a row apart, the last one on the
      quantized anchor row, none holding a '\n', and together spelling the
      string. */
  lemma DrawCharsLayout(point: Point2, color: Color, str: string)
    ensures var cmds := DrawCharsSpec(point, color, str);
      && |cmds| == CountNewlines(str) + 1
      && (forall i :: 0 <= i < |cmds| ==>
            cmds[i].Text? && cmds[i].x == point.x && cmds[i].color == color && NoNewline(cmds[i].text))
      && (forall i :: 0 <= i < |cmds| - 1 ==> cmds[i + 1].y == cmds[i].y + RowHeight)
      && cmds[|cmds| - 1].y == QuantizeRow(point.y)
      && JoinLines(seq(|cmds|, i requires 0 <= i < |cmds| => cmds[i].text)) == str
  {
    var cmds := DrawCharsSpec(point, color, str);
    LinesCount(str, 0);
    LinesHaveNoNewline(str, 0);
    JoinLinesOfLines(str, 0);
    assert str[0..] == str;
    assert seq(|cmds|, i requires 0 <= i < |cmds| => cmds[i].text) == LinesFrom(str, 0);
  }

  /** The shape of every draw_chars output: at least one text, all at the
      point's column and in the given colour, the last on the quantized
      anchor row. */
  lemma DrawCharsShape(point: Point2, color: Color, str: string)
    ensures var cmds := DrawCharsSpec(point, color, str);
      && |cmds| >= 1
      && (forall i :: 0 <= i < |cmds| ==> cmds[i].Text? && cmds[i].x == point.x && cmds[i].color == color)
      && cmds[|cmds| - 1].y == QuantizeRow(point.y)
  {
    LinesCount(str, 0);
    assert str[0..] == str;
  }

  /** An empty string still yields one call, with the empty string. */
  lemma DrawCharsEmpty(point: Point2, color: Color)
    ensures DrawCharsSpec(point, color, "") == [Text(point.x, QuantizeRow(point.y), "", color)]
  {
    assert LinesFrom("", 0) == [""];
  }

  /** The line loop's step, phrased for its invariant: the lines still to
      draw are `lines[k..]`. */
  lemma NextLine(s: string, from: nat, lines: seq<string>, k: nat)
    requires from <= |s| && k <= |lines| && LinesFrom(s, from) == lines[k..]
    ensures Find(s, '\n', from).None? ==> k + 1 == |lines| && lines[k] == s[from..]
    ensures Find(s, '\n', from).Some? ==>
      var e := Find(s, '\n', from).value;
      k + 1 < |lines| && lines[k] == s[from..e] && LinesFrom(s, e + 1) == lines[k + 1..]
  {
    assert lines[k..][1..] == lines[k + 1..];
  }

  /** Commands that place each line of `str` where draw_chars does are its
      calls. */
  lemma DrawnLinesAreSpec(point: Point2, color: Color, str: string, cmds: seq<Command>)
    requires |cmds| == |LinesFrom(str, 0)|
    requires forall i :: 0 <= i < |cmds| ==>
      cmds[i] == Text(point.x, QuantizeRow(point.y) - CountNewlines(str) * RowHeight + i * RowHeight,
                      LinesFrom(str, 0)[i], color)
    ensures cmds == DrawCharsSpec(point, color, str)
  {
  }

  /** draw_chars: the do-while loop over the lines of `str`. */
  method DrawChars(point: Point2, color: Color, str: string) returns (cmds: seq<Command>)
    ensures cmds == DrawCharsSpec(point, color, str)
  {
    var y := QuantizeRow(point.y);
    var lineCnt := CountNewlines(str);
    y := y - lineCnt * RowHeight;
    ghost var top := y;
    assert top == QuantizeRow(point.y) - CountNewlines(str) * RowHeight;
    ghost var lines := LinesFrom(str, 0);
    var lineStart: nat := 0;
    cmds := [];
    var done := false;
    while !done
      invariant lineStart <= |str|
      invariant |cmds| <= |lines|
      invariant !done ==> LinesFrom(str, lineStart) == lines[|cmds|..]
      invariant done ==> |cmds| == |lines|
      invariant y == top + |cmds| * RowHeight
      invariant forall i :: 0 <= i < |cmds| ==> cmds[i] == Text(point.x, top + i * RowHeight, lines[i], color)
      decreases if done then 0 else |str| - lineStart + 1
    {
      var lineEnd := Find(str, '\n', lineStart);
      NextLine(str, lineStart, lines, |cmds|);
      if lineEnd.None? {
        cmds := cmds + [Text(point.x, y, str[lineStart..], color)];
        done := true;
      } else {
        var lineEndAt := lineEnd.value;
        cmds := cmds + [Text(point.x, y, str[lineStart..lineEndAt], color)];
        lineStart := lineEndAt + 1;
      }
      y := y + RowHeight;
    }
    DrawnLinesAreSpec(point, color, str, cmds);
  }
}
