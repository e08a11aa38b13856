/** Fenced code in a markdown document (infra/pc-kit/hwax-md2docx.py): the one-pass scanner
    code_lines against the block parser parse_blocks. A line is its quote markers and a body. */
module Fences {
  import opened Options

  /** A line of fence characters: which one, how many, and what follows them. */
  datatype Fence = Fence(tick: bool, len: nat, info: Info)

  datatype Info = Nothing | Words | WordsWithTick

  /** A list marker: numbered or not, numbered 1 or not, followed by text or not. */
  datatype Marker = Marker(ordered: bool, one: bool, text: bool)

  /** What the patterns say of a line without its quote markers. */
  datatype AnyBody = Body(blank: bool, indent: nat, fence: Option<Fence>, heading: bool, hr: bool, setext: bool,
                          figure: bool, pipe: bool, delim: bool, marker: Option<Marker>)

  /** A line of fence characters is not blank, no table delimiter, no underline and no list item. */
  type Body = b: AnyBody | b.fence.Some? ==> !b.blank && !b.setext && !b.delim && b.marker.None?
    witness Body(true, 0, None, false, false, false, false, false, false, None)

  /** A line: quote markers, each with its indent, and then the body. */
  datatype Line = Text(body: Body) | Quoted(indent: nat, rest: Line)

  // ---------------------------------------------------------------- patterns on a line

  /** How many quote markers the line starts with. */
  function Depth(ln: Line): nat { if ln.Quoted? then 1 + Depth(ln.rest) else 0 }

  /** The line without its n outermost markers. */
  function Strip(ln: Line, n: nat): Line
    requires n <= Depth(ln)
  {
    if n == 0 then ln else Strip(ln.rest, n - 1)
  }

  function BodyOf(ln: Line): Body { if ln.Quoted? then BodyOf(ln.rest) else ln.body }

  predicate OpensBody(b: Body) { b.fence.Some? && !(b.fence.value.tick && b.fence.value.info.WordsWithTick?) }

  predicate ClosesBody(b: Body, f: Fence) {
    b.fence.Some? && b.fence.value.tick == f.tick && b.fence.value.len >= f.len && b.fence.value.info.Nothing?
  }

  /** _fence_open and _fence_close: a line that starts with a quote marker matches neither. */
  predicate Opens(ln: Line) { ln.Text? && OpensBody(ln.body) }

  predicate Closes(ln: Line, f: Fence) { ln.Text? && ClosesBody(ln.body, f) }

  predicate IsBlank(ln: Line) { ln.Text? && ln.body.blank }

  predicate IsHeading(ln: Line) { ln.Text? && ln.body.heading }

  predicate IsHr(ln: Line) { ln.Text? && ln.body.hr }

  predicate IsSetext(ln: Line) { ln.Text? && ln.body.setext }

  predicate IsFigure(ln: Line) { ln.Text? && ln.body.figure }

  predicate IsItem(ln: Line) { ln.Text? && ln.body.marker.Some? }

  function Indent(ln: Line): nat { if ln.Quoted? then ln.indent else ln.body.indent }

  predicate TableStart(lines: seq<Line>, i: nat) {
    && i + 1 < |lines| && BodyOf(lines[i]).pipe
    && BodyOf(lines[i + 1]).pipe && !lines[i + 1].Quoted? && BodyOf(lines[i + 1]).delim
  }

  predicate Interrupts(lines: seq<Line>, i: nat)
    requires i < |lines|
  {
    var ln := lines[i];
    || Opens(ln) || IsHeading(ln) || IsHr(ln) || ln.Quoted? || TableStart(lines, i) || IsFigure(ln)
    || (IsItem(ln) && ln.body.marker.value.text && (!ln.body.marker.value.ordered || ln.body.marker.value.one))
  }

  // ---------------------------------------------------------------- the scanner

  /** An open fence and the quote depth it was opened at. */
  datatype State = Outside | Inside(f: Fence, depth: nat)

  /** One line of code_lines: is it code, and the state after it. */
  function ScanLine(ln: Line, st: State): (bool, State) {
    if st.Inside? && Depth(ln) >= st.depth then (true, if Closes(Strip(ln, st.depth), st.f) then Outside else st)
    else if OpensBody(BodyOf(ln)) then (true, Inside(BodyOf(ln).fence.value, Depth(ln)))
    else (false, Outside)
  }

  function Scan(lines: seq<Line>, i: nat, st: State): (r: seq<bool>)
    requires i <= |lines|
    ensures |r| == |lines| - i
    decreases |lines| - i
  {
    if i == |lines| then []
    else
      var (code, next) := ScanLine(lines[i], st);
      [code] + Scan(lines, i + 1, next)
  }

  /** The loop of code_lines over the quote markers of one line, up to `depth` of them. */
  method StripUpTo(ln: Line, depth: nat) returns (body: Line, got: nat)
    ensures got == if Depth(ln) < depth then Depth(ln) else depth
    ensures body == Strip(ln, got)
  {
    body, got := ln, 0;
    while got < depth && body.Quoted?
      invariant got <= depth && got <= Depth(ln)
      invariant body == Strip(ln, got) && Depth(body) == Depth(ln) - got
    {
      StripOne(ln, got);
      body, got := body.rest, got + 1;
    }
  }

  lemma {:induction false} StripOne(ln: Line, n: nat)
    requires n < Depth(ln)
    ensures Strip(ln, n).Quoted? && Strip(ln, n).rest == Strip(ln, n + 1)
  {
    if n > 0 {
      StripOne(ln.rest, n - 1);
    }
  }

  /** Without all its markers a line is its body. */
  lemma {:induction false} StripAll(ln: Line)
    ensures Strip(ln, Depth(ln)) == Text(BodyOf(ln))
  {
    if ln.Quoted? {
      StripAll(ln.rest);
    }
  }

  function StateOf(fence: Option<Fence>, depth: nat): State {
    if fence.Some? then Inside(fence.value, depth) else Outside
  }

  /** The body of the loop of code_lines. */
  method MarkLine(ln: Line, fence: Option<Fence>, depth: nat) returns (code: bool, open: Option<Fence>, at: nat)
    ensures (code, StateOf(open, at)) == ScanLine(ln, StateOf(fence, depth))
  {
    if fence.Some? {
      var body, got := StripUpTo(ln, depth);
      if got == depth {
        return true, if Closes(body, fence.value) then None else fence, depth;
      }
    }
    var body;
    body, at := StripUpTo(ln, Depth(ln));
    StripAll(ln);
    open := if Opens(body) then Some(body.body.fence.value) else None;
    code := open.Some?;
  }

  /** code_lines. */
  method CodeLines(lines: seq<Line>) returns (out: seq<bool>)
    ensures out == Scan(lines, 0, Outside)
    ensures forall n :: 0 <= n < |lines| ==> (out[n] <==> IsCode(lines, n))
  {
    out := [];
    var fence: Option<Fence>, depth: nat := None, 0;
    for i := 0 to |lines|
      invariant out + Scan(lines, i, StateOf(fence, depth)) == Scan(lines, 0, Outside)
    {
      var code, open, at := MarkLine(lines[i], fence, depth);
      ghost var rest := Scan(lines, i + 1, StateOf(open, at));
      assert out + ([code] + rest) == (out + [code]) + rest;
      out, fence, depth := out + [code], open, at;
    }
    forall n | 0 <= n < |lines|
      ensures out[n] <==> IsCode(lines, n)
    {
      ScanIsCode(lines, n);
    }
  }

  // ---------------------------------------------------------------- the block parser

  datatype Kind = Heading | Hr | Table | List | Figure | Para

  /** A block of lines `line` up to but not including `end`. */
  datatype Block =
    | Code(line: nat, end: nat)
    | Quote(line: nat, end: nat, blocks: seq<Block>)
    | Leaf(kind: Kind, line: nat, end: nat)

  /** The first line from j on that closes f; |lines| if none. */
  function CodeEnd(lines: seq<Line>, j: nat, f: Fence): (e: nat)
    requires j <= |lines|
    ensures j <= e <= |lines|
    decreases |lines| - j
  {
    if j == |lines| || Closes(lines[j], f) then j else CodeEnd(lines, j + 1, f)
  }

  /** The first line from j on that is not quoted; |lines| if none. */
  function QuoteEnd(lines: seq<Line>, j: nat): (e: nat)
    requires j <= |lines|
    ensures j <= e <= |lines|
    ensures forall k :: j <= k < e ==> lines[k].Quoted?
    ensures e < |lines| ==> !lines[e].Quoted?
    decreases |lines| - j
  {
    if j == |lines| || !lines[j].Quoted? then j else QuoteEnd(lines, j + 1)
  }

  /** _parse_table: the rows from j on. */
  function TableEnd(lines: seq<Line>, j: nat): (e: nat)
    requires j <= |lines|
    ensures j <= e <= |lines|
    ensures forall k :: j <= k < e ==> !OpensBody(BodyOf(lines[k]))
    decreases |lines| - j
  {
    if j < |lines| && !IsBlank(lines[j]) && BodyOf(lines[j]).pipe
       && !(Opens(lines[j]) || IsHeading(lines[j]) || lines[j].Quoted?)
    then TableEnd(lines, j + 1) else j
  }

  /** The rest of a paragraph from j on. */
  function ParaEnd(lines: seq<Line>, j: nat): (e: nat)
    requires j <= |lines|
    ensures j <= e <= |lines|
    ensures forall k :: j <= k < e ==> !OpensBody(BodyOf(lines[k]))
    decreases |lines| - j
  {
    if j < |lines| && !IsBlank(lines[j]) && !IsSetext(lines[j]) && !Interrupts(lines, j)
    then ParaEnd(lines, j + 1) else j
  }

  function NonBlank(lines: seq<Line>, j: nat): (e: nat)
    requires j <= |lines|
    ensures j <= e <= |lines|
    ensures forall k :: j <= k < e ==> !OpensBody(BodyOf(lines[k]))
    decreases |lines| - j
  {
    if j < |lines| && IsBlank(lines[j]) then NonBlank(lines, j + 1) else j
  }

  /** _parse_list: where the list whose first item is indented by `first` ends, read from line j on. */
  function ListEnd(lines: seq<Line>, j: nat, first: nat): (e: nat)
    requires j <= |lines|
    ensures j <= e <= |lines|
    ensures forall k :: j <= k < e && !lines[k].Quoted? ==> !OpensBody(BodyOf(lines[k]))
    decreases |lines| - j
  {
    if j == |lines| then j
    else
      var ln := lines[j];
      if IsItem(ln) && !IsHr(ln) then ListEnd(lines, j + 1, first)
      else if IsBlank(ln) then
        var k := NonBlank(lines, j + 1);
        if k < |lines| && !IsHr(lines[k]) && IsItem(lines[k]) then ListEnd(lines, k, first)
        else if k < |lines| && Indent(lines[k]) >= first + 2 && !Opens(lines[k]) && !TableStart(lines, k)
        then ListEnd(lines, k, first)
        else j
      else if (Indent(ln) < 2 && Interrupts(lines, j)) || Opens(ln) || TableStart(lines, j) then j
      else ListEnd(lines, j + 1, first)
  }

  /** The quoted lines i to j without their outermost marker. */
  function Inner(lines: seq<Line>, i: nat, j: nat): (r: seq<Line>)
    requires i <= j <= |lines| && forall k :: i <= k < j ==> lines[k].Quoted?
    ensures |r| == j - i && forall k :: 0 <= k < |r| ==> r[k] == lines[i + k].rest
  {
    seq(j - i, k requires 0 <= k < j - i => lines[i + k].rest)
  }

  /** No line is quoted deeper than d. */
  ghost predicate DepthAtMost(lines: seq<Line>, d: nat) { forall k :: 0 <= k < |lines| ==> Depth(lines[k]) <= d }

  /** One block that starts at line i, which is not blank and, at quote depth 0, not quoted. */
  function LeafAt(lines: seq<Line>, i: nat, base: nat): (b: Block)
    requires i < |lines| && !IsBlank(lines[i]) && !lines[i].Quoted?
    ensures b.line == base + i < b.end <= base + |lines| && !b.Quote?
  {
    var ln := lines[i];
    if Opens(ln) then
      var j := CodeEnd(lines, i + 1, ln.body.fence.value);
      Code(base + i, base + if j < |lines| then j + 1 else j)
    else if IsHeading(ln) then Leaf(Heading, base + i, base + i + 1)
    else if IsHr(ln) then Leaf(Hr, base + i, base + i + 1)
    else if TableStart(lines, i) then Leaf(Table, base + i, base + TableEnd(lines, i + 2))
    else if IsItem(ln) then Leaf(List, base + i, base + ListEnd(lines, i + 1, Indent(ln)))
    else if IsFigure(ln) then Leaf(Figure, base + i, base + i + 1)
    else
      var j := ParaEnd(lines, i + 1);
      if j < |lines| && IsSetext(lines[j]) then Leaf(Heading, base + i, base + j + 1)
      else Leaf(Para, base + i, base + j)
  }

  /** parse_blocks from line i on. */
  function Blocks(lines: seq<Line>, i: nat, base: nat, ghost d: nat): (r: seq<Block>)
    requires i <= |lines| && DepthAtMost(lines, d)
    decreases d, |lines| - i
  {
    if i == |lines| then []
    else if IsBlank(lines[i]) then Blocks(lines, i + 1, base, d)
    else if lines[i].Quoted? then
      var j := QuoteEnd(lines, i);
      [Quote(base + i, base + j, Blocks(Inner(lines, i, j), 0, base + i, d - 1))] + Blocks(lines, j, base, d)
    else
      var b := LeafAt(lines, i, base);
      [b] + Blocks(lines, b.end - base, base, d)
  }

  // ---------------------------------------------------------------- the parser's loops

  method SkipCode(lines: seq<Line>, i: nat, f: Fence) returns (j: nat)
    requires i <= |lines|
    ensures j == CodeEnd(lines, i, f)
  {
    j := i;
    while j < |lines| && !Closes(lines[j], f)
      invariant i <= j <= |lines| && CodeEnd(lines, i, f) == CodeEnd(lines, j, f)
    {
      j := j + 1;
    }
  }

  method GatherQuote(lines: seq<Line>, i: nat) returns (sub: seq<Line>, j: nat)
    requires i <= |lines|
    ensures j == QuoteEnd(lines, i) && sub == Inner(lines, i, j)
  {
    j, sub := i, [];
    while j < |lines| && lines[j].Quoted?
      invariant i <= j <= |lines| && QuoteEnd(lines, i) == QuoteEnd(lines, j)
      invariant |sub| == j - i && forall k :: 0 <= k < |sub| ==> sub[k] == lines[i + k].rest
    {
      sub, j := sub + [lines[j].rest], j + 1;
    }
  }

  method SkipTable(lines: seq<Line>, i: nat) returns (j: nat)
    requires i <= |lines|
    ensures j == TableEnd(lines, i)
  {
    j := i;
    while j < |lines| && !IsBlank(lines[j]) && BodyOf(lines[j]).pipe
          && !(Opens(lines[j]) || IsHeading(lines[j]) || lines[j].Quoted?)
      invariant i <= j <= |lines| && TableEnd(lines, i) == TableEnd(lines, j)
    {
      j := j + 1;
    }
  }

  method SkipPara(lines: seq<Line>, i: nat) returns (j: nat)
    requires i <= |lines|
    ensures j == ParaEnd(lines, i)
  {
    j := i;
    while j < |lines| && !IsBlank(lines[j]) && !IsSetext(lines[j]) && !Interrupts(lines, j)
      invariant i <= j <= |lines| && ParaEnd(lines, i) == ParaEnd(lines, j)
    {
      j := j + 1;
    }
  }

  method SkipBlank(lines: seq<Line>, i: nat) returns (j: nat)
    requires i <= |lines|
    ensures j == NonBlank(lines, i)
  {
    j := i;
    while j < |lines| && IsBlank(lines[j])
      invariant i <= j <= |lines| && NonBlank(lines, i) == NonBlank(lines, j)
    {
      j := j + 1;
    }
  }

  method SkipList(lines: seq<Line>, start: nat) returns (i: nat)
    requires start < |lines| && IsItem(lines[start]) && !IsHr(lines[start])
    ensures i == ListEnd(lines, start + 1, Indent(lines[start]))
  {
    i := start;
    var first: Option<nat> := None;
    while i < |lines|
      invariant start <= i <= |lines| && (first.None? <==> i == start)
      invariant first.Some? ==> first.value == Indent(lines[start])
      invariant first.Some? ==> ListEnd(lines, start + 1, first.value) == ListEnd(lines, i, first.value)
    {
      var ln := lines[i];
      if !IsHr(ln) && IsItem(ln) {
        first := if first.None? then Some(Indent(ln)) else first;
        i := i + 1;
      } else if IsBlank(ln) {
        var j := SkipBlank(lines, i + 1);
        if j < |lines| && !IsHr(lines[j]) && IsItem(lines[j]) {
          i := j;
        } else if j < |lines| && Indent(lines[j]) >= first.value + 2 && !Opens(lines[j]) && !TableStart(lines, j) {
          i := j;
        } else {
          break;
        }
      } else if (Indent(ln) < 2 && Interrupts(lines, i)) || Opens(ln) || TableStart(lines, i) {
        break;
      } else {
        i := i + 1;
      }
    }
  }

  /** One round of parse_blocks at a line that is neither blank nor quoted: the block, and where to go on. */
  method ParseLeaf(lines: seq<Line>, i: nat, base: nat) returns (b: Block, next: nat)
    requires i < |lines| && !IsBlank(lines[i]) && !lines[i].Quoted?
    ensures b == LeafAt(lines, i, base) && next == b.end - base
  {
    var ln := lines[i];
    if Opens(ln) {
      var j := SkipCode(lines, i + 1, ln.body.fence.value);
      next := if j < |lines| then j + 1 else j;
      b := Code(base + i, base + next);
    } else if IsHeading(ln) {
      b, next := Leaf(Heading, base + i, base + i + 1), i + 1;
    } else if IsHr(ln) {
      b, next := Leaf(Hr, base + i, base + i + 1), i + 1;
    } else if TableStart(lines, i) {
      next := SkipTable(lines, i + 2);
      b := Leaf(Table, base + i, base + next);
    } else if IsItem(ln) {
      next := SkipList(lines, i);
      b := Leaf(List, base + i, base + next);
    } else if IsFigure(ln) {
      b, next := Leaf(Figure, base + i, base + i + 1), i + 1;
    } else {
      var j := SkipPara(lines, i + 1);
      if j < |lines| && IsSetext(lines[j]) {
        b, next := Leaf(Heading, base + i, base + j + 1), j + 1;
      } else {
        b, next := Leaf(Para, base + i, base + j), j;
      }
    }
  }

  /** parse_blocks. */
  method ParseBlocks(lines: seq<Line>, base: nat, ghost d: nat) returns (out: seq<Block>)
    requires DepthAtMost(lines, d)
    ensures out == Blocks(lines, 0, base, d)
    decreases d, 1
  {
    out := [];
    var i := 0;
    while i < |lines|
      invariant i <= |lines| && out + Blocks(lines, i, base, d) == Blocks(lines, 0, base, d)
      decreases |lines| - i
    {
      if IsBlank(lines[i]) {
        i := i + 1;
      } else {
        var b, next := ParseOne(lines, i, base, d);
        assert out + ([b] + Blocks(lines, next, base, d)) == (out + [b]) + Blocks(lines, next, base, d);
        out, i := out + [b], next;
      }
    }
  }

  method ParseOne(lines: seq<Line>, i: nat, base: nat, ghost d: nat) returns (b: Block, next: nat)
    requires i < |lines| && DepthAtMost(lines, d) && !IsBlank(lines[i])
    ensures i < next <= |lines| && Blocks(lines, i, base, d) == [b] + Blocks(lines, next, base, d)
    decreases d, 0
  {
    if lines[i].Quoted? {
      var sub;
      sub, next := GatherQuote(lines, i);
      BlocksAtQuote(lines, i, base, d, next);
      var blocks := ParseBlocks(sub, base + i, d - 1);
      b := Quote(base + i, base + next, blocks);
    } else {
      b, next := ParseLeaf(lines, i, base);
      BlocksAtLeaf(lines, i, base, d);
    }
  }

  // ---------------------------------------------------------------- the code of a block list

  /** Line n lies in a code block, in whatever quotes. */
  predicate InCode(blocks: seq<Block>, n: nat) {
    exists k :: 0 <= k < |blocks| && InBlock(blocks[k], n)
  }

  predicate InBlock(b: Block, n: nat) {
    b.line <= n < b.end && (b.Code? || (b.Quote? && InCode(b.blocks, n)))
  }

  lemma InCodeCons(b: Block, rest: seq<Block>, n: nat)
    ensures InCode([b] + rest, n) <==> InBlock(b, n) || InCode(rest, n)
  {
    var all := [b] + rest;
    assert all[0] == b;
    if k :| 0 <= k < |rest| && InBlock(rest[k], n) {
      assert all[k + 1] == rest[k];
    }
  }

  /** Blocks from line i on hold no line before i. */
  lemma {:induction false} NotBefore(lines: seq<Line>, i: nat, base: nat, d: nat, n: nat)
    requires i <= |lines| && DepthAtMost(lines, d)
    ensures InCode(Blocks(lines, i, base, d), n) ==> base + i <= n
    decreases |lines| - i
  {
    if i < |lines| {
      if IsBlank(lines[i]) {
        NotBefore(lines, i + 1, base, d, n);
      } else if lines[i].Quoted? {
        var j := QuoteEnd(lines, i);
        NotBefore(lines, j, base, d, n);
        var b := Quote(base + i, base + j, Blocks(Inner(lines, i, j), 0, base + i, d - 1));
        InCodeCons(b, Blocks(lines, j, base, d), n);
      } else {
        var b := LeafAt(lines, i, base);
        NotBefore(lines, b.end - base, base, d, n);
        InCodeCons(b, Blocks(lines, b.end - base, base, d), n);
      }
    }
  }

  // ---------------------------------------------------------------- the scanner in pieces

  function After(lines: seq<Line>, i: nat, j: nat, st: State): State
    requires i <= j <= |lines|
    decreases j - i
  {
    if i == j then st else After(lines, i + 1, j, ScanLine(lines[i], st).1)
  }

  /** Does the scanner, started at line i in state st, mark line n? */
  predicate Marked(lines: seq<Line>, i: nat, st: State, n: nat)
    requires i <= n < |lines|
    decreases n - i
  {
    var (code, next) := ScanLine(lines[i], st);
    if n == i then code else Marked(lines, i + 1, next, n)
  }

  lemma {:induction false} MarkedIsScan(lines: seq<Line>, i: nat, st: State, n: nat)
    requires i <= n < |lines|
    ensures Marked(lines, i, st, n) == Scan(lines, i, st)[n - i]
    decreases n - i
  {
    if i < n {
      MarkedIsScan(lines, i + 1, ScanLine(lines[i], st).1, n);
    }
  }

  lemma {:induction false} MarkedFrom(lines: seq<Line>, i: nat, j: nat, st: State, n: nat)
    requires i <= j <= n < |lines|
    ensures Marked(lines, i, st, n) == Marked(lines, j, After(lines, i, j, st), n)
    decreases j - i
  {
    if i < j {
      MarkedFrom(lines, i + 1, j, ScanLine(lines[i], st).1, n);
    }
  }

  /** While no line opens a fence nothing is code and the scanner stays outside. */
  lemma {:induction false} ScanPlain(lines: seq<Line>, i: nat, j: nat)
    requires i <= j <= |lines| && forall k :: i <= k < j ==> !OpensBody(BodyOf(lines[k]))
    ensures After(lines, i, j, Outside) == Outside
    ensures forall n :: i <= n < j ==> !Marked(lines, i, Outside, n)
    decreases j - i
  {
    if i < j {
      ScanPlain(lines, i + 1, j);
    }
  }

  /** The first line that opens a fence is code. */
  lemma ScanFirstOpener(lines: seq<Line>, i: nat, j: nat)
    requires i <= j < |lines| && OpensBody(BodyOf(lines[j]))
    requires forall k :: i <= k < j ==> !OpensBody(BodyOf(lines[k]))
    ensures Marked(lines, i, Outside, j)
  {
    ScanPlain(lines, i, j);
    MarkedFrom(lines, i, j, Outside, j);
  }

  /** From inside a fence of depth 0 all is code up to the closing line. */
  lemma {:induction false} ScanFenced(lines: seq<Line>, j: nat, f: Fence)
    requires j <= |lines|
    ensures var e := CodeEnd(lines, j, f);
            && (forall n :: j <= n < |lines| && n <= e ==> Marked(lines, j, Inside(f, 0), n))
            && (e < |lines| ==> After(lines, j, e + 1, Inside(f, 0)) == Outside)
    decreases |lines| - j
  {
    if j < |lines| {
      var ln := lines[j];
      if !Closes(ln, f) {
        ScanFenced(lines, j + 1, f);
      }
    }
  }

  /** States that a quote block can be in: a fence in it has depth 1 or more. */
  predicate Deep(st: State) { st.Inside? ==> st.depth > 0 }

  function Shallower(st: State): State
    requires Deep(st)
  {
    if st.Inside? then Inside(st.f, st.depth - 1) else st
  }

  /** Dropping the outermost marker of quoted lines changes nothing for the scanner. */
  lemma {:induction false} ScanInner(lines: seq<Line>, inner: seq<Line>, i: nat, j: nat, k: nat, st: State, n: nat)
    requires i <= k <= n < j <= |lines| && Deep(st)
    requires (forall m :: i <= m < j ==> lines[m].Quoted?) && inner == Inner(lines, i, j)
    ensures Marked(lines, k, st, n) == Marked(inner, k - i, Shallower(st), n - i)
    decreases n - k
  {
    StepInner(lines[k], st);
    assert inner[k - i] == lines[k].rest;
    if k < n {
      ScanInner(lines, inner, i, j, k + 1, ScanLine(lines[k], st).1, n);
    }
  }

  lemma StepInner(ln: Line, st: State)
    requires ln.Quoted? && Deep(st)
    ensures var (code, next) := ScanLine(ln, st);
            Deep(next) && ScanLine(ln.rest, Shallower(st)) == (code, Shallower(next))
  {
  }

  lemma {:induction false} DeepAfter(lines: seq<Line>, i: nat, j: nat, st: State)
    requires i <= j <= |lines| && Deep(st) && forall m :: i <= m < j ==> lines[m].Quoted?
    ensures Deep(After(lines, i, j, st))
    decreases j - i
  {
    if i < j {
      StepInner(lines[i], st);
      DeepAfter(lines, i + 1, j, ScanLine(lines[i], st).1);
    }
  }

  /** A line without quote markers ends every fence of a quote. */
  lemma ScanRestarts(lines: seq<Line>, j: nat, st: State, n: nat)
    requires j <= n < |lines| && Deep(st) && !lines[j].Quoted?
    ensures Marked(lines, j, st, n) == Marked(lines, j, Outside, n)
  {
  }

  // ---------------------------------------------------------------- agreement

  /** The block at line i is no list that takes in a line that opens a fence. */
  ghost predicate PlainLeaf(lines: seq<Line>, i: nat)
    requires i < |lines| && !IsBlank(lines[i]) && !lines[i].Quoted?
  {
    var b := LeafAt(lines, i, 0);
    b.Leaf? && b.kind.List? ==> forall k :: i <= k < b.end ==> !OpensBody(BodyOf(lines[k]))
  }

  /** No list takes in a quoted line that opens a fence. Such a line is indented by 2 or 3: less,
      and it would end the list. */
  ghost predicate NoFenceInList(lines: seq<Line>, i: nat, d: nat)
    requires i <= |lines| && DepthAtMost(lines, d)
    decreases d, |lines| - i
  {
    if i == |lines| then true
    else if IsBlank(lines[i]) then NoFenceInList(lines, i + 1, d)
    else if lines[i].Quoted? then
      var j := QuoteEnd(lines, i);
      NoFenceInList(Inner(lines, i, j), 0, d - 1) && NoFenceInList(lines, j, d)
    else
      PlainLeaf(lines, i) && NoFenceInList(lines, LeafAt(lines, i, 0).end, d)
  }

  /** Of line n, the scanner started at line i says what the blocks from line i on say. */
  ghost predicate AgreeAt(lines: seq<Line>, i: nat, base: nat, d: nat, n: nat)
    requires i <= n < |lines| && DepthAtMost(lines, d)
  {
    Marked(lines, i, Outside, n) == InCode(Blocks(lines, i, base, d), base + n)
  }

  lemma LeafBase(lines: seq<Line>, i: nat, base: nat)
    requires i < |lines| && !IsBlank(lines[i]) && !lines[i].Quoted?
    ensures var b, c := LeafAt(lines, i, base), LeafAt(lines, i, 0);
            b.end == base + c.end && (b.Code? <==> c.Code?) && (b.Leaf? ==> b.kind == c.kind)
  {
  }

  /** A code block is code line for line, and the scanner is outside after it. */
  lemma CodeLeaf(lines: seq<Line>, i: nat)
    requires i < |lines| && Opens(lines[i]) && !IsBlank(lines[i])
    ensures var b := LeafAt(lines, i, 0);
            && b.Code?
            && (b.end < |lines| ==> After(lines, i, b.end, Outside) == Outside)
            && (forall n :: i <= n < b.end ==> Marked(lines, i, Outside, n))
  {
    var f := BodyOf(lines[i]).fence.value;
    ScanFenced(lines, i + 1, f);
    assert ScanLine(lines[i], Outside) == (true, Inside(f, 0));
  }

  /** No block but a list takes in a line that opens a fence. */
  lemma LeafTakesNoFence(lines: seq<Line>, i: nat)
    requires i < |lines| && !IsBlank(lines[i]) && !lines[i].Quoted? && !Opens(lines[i])
    ensures var b := LeafAt(lines, i, 0);
            && b.Leaf?
            && (!b.kind.List? ==> forall k :: i <= k < b.end ==> !OpensBody(BodyOf(lines[k])))
            && (b.kind.List? ==> forall k :: i <= k < b.end && OpensBody(BodyOf(lines[k])) ==> lines[k].Quoted?)
  {
  }

  /** What comes first decides up to its end, what follows decides behind it. */
  lemma InCodeSplit(lines: seq<Line>, base: nat, d: nat, b: Block, e: nat, n: nat)
    requires n < |lines| && e <= |lines| && DepthAtMost(lines, d) && b.end == base + e
    ensures InCode([b] + Blocks(lines, e, base, d), base + n)
        <==> if n < e then InBlock(b, base + n) else InCode(Blocks(lines, e, base, d), base + n)
  {
    InCodeCons(b, Blocks(lines, e, base, d), base + n);
    NotBefore(lines, e, base, d, base + n);
  }

  lemma InnerDepth(lines: seq<Line>, i: nat, d: nat, j: nat)
    requires i < |lines| && DepthAtMost(lines, d) && lines[i].Quoted? && j == QuoteEnd(lines, i)
    ensures d > 0 && i < j && DepthAtMost(Inner(lines, i, j), d - 1)
  {
  }

  lemma BlocksAtQuote(lines: seq<Line>, i: nat, base: nat, d: nat, j: nat)
    requires i < |lines| && DepthAtMost(lines, d) && lines[i].Quoted? && j == QuoteEnd(lines, i)
    ensures d > 0 && DepthAtMost(Inner(lines, i, j), d - 1) && i < j
    ensures Blocks(lines, i, base, d)
         == [Quote(base + i, base + j, Blocks(Inner(lines, i, j), 0, base + i, d - 1))] + Blocks(lines, j, base, d)
  {
    InnerDepth(lines, i, d, j);
    assert !IsBlank(lines[i]) && i != |lines|;
  }

  lemma BlocksAtLeaf(lines: seq<Line>, i: nat, base: nat, d: nat)
    requires i < |lines| && DepthAtMost(lines, d) && !IsBlank(lines[i]) && !lines[i].Quoted?
    ensures var b := LeafAt(lines, i, base);
            i < b.end - base <= |lines| && Blocks(lines, i, base, d) == [b] + Blocks(lines, b.end - base, base, d)
  {
  }

  lemma AgreeOnBlank(lines: seq<Line>, i: nat, base: nat, d: nat, n: nat)
    requires i <= n < |lines| && DepthAtMost(lines, d) && IsBlank(lines[i])
    ensures n == i ==> AgreeAt(lines, i, base, d, n)
    ensures n > i ==> AgreeAt(lines, i, base, d, n) == AgreeAt(lines, i + 1, base, d, n)
  {
    NotBefore(lines, i + 1, base, d, base + n);
  }

  lemma InCodeInQuote(lines: seq<Line>, inner: seq<Line>, i: nat, base: nat, d: nat, j: nat, n: nat)
    requires i <= n < j <= |lines| && DepthAtMost(lines, d) && lines[i].Quoted? && j == QuoteEnd(lines, i)
    requires d > 0 && inner == Inner(lines, i, j) && DepthAtMost(inner, d - 1)
    ensures InCode(Blocks(lines, i, base, d), base + n) == InCode(Blocks(inner, 0, base + i, d - 1), base + n)
  {
    BlocksAtQuote(lines, i, base, d, j);
    var b := Quote(base + i, base + j, Blocks(inner, 0, base + i, d - 1));
    InCodeSplit(lines, base, d, b, j, n);
    assert InBlock(b, base + n) == InCode(b.blocks, base + n);
  }

  /** Inside a quote block they agree on a line as they do on that line of its content. */
  lemma AgreeInQuote(lines: seq<Line>, inner: seq<Line>, i: nat, base: nat, d: nat, j: nat, n: nat)
    requires i <= n < j <= |lines| && DepthAtMost(lines, d) && lines[i].Quoted? && j == QuoteEnd(lines, i)
    requires d > 0 && inner == Inner(lines, i, j) && DepthAtMost(inner, d - 1)
    ensures AgreeAt(lines, i, base, d, n) == AgreeAt(inner, 0, base + i, d - 1, n - i)
  {
    ScanInner(lines, inner, i, j, i, Outside, n);
    InCodeInQuote(lines, inner, i, base, d, j, n);
  }

  lemma AgreeBehindQuote(lines: seq<Line>, i: nat, base: nat, d: nat, j: nat, n: nat)
    requires i < j <= n < |lines| && DepthAtMost(lines, d) && lines[i].Quoted? && j == QuoteEnd(lines, i)
    ensures AgreeAt(lines, i, base, d, n) == AgreeAt(lines, j, base, d, n)
  {
    DeepAfter(lines, i, j, Outside);
    MarkedFrom(lines, i, j, Outside, n);
    ScanRestarts(lines, j, After(lines, i, j, Outside), n);
    BlocksAtQuote(lines, i, base, d, j);
    InCodeSplit(lines, base, d, Quote(base + i, base + j, Blocks(Inner(lines, i, j), 0, base + i, d - 1)), j, n);
  }

  lemma AgreeOnLeaf(lines: seq<Line>, i: nat, base: nat, d: nat, e: nat, n: nat)
    requires i <= n < |lines| && DepthAtMost(lines, d) && !IsBlank(lines[i]) && !lines[i].Quoted?
    requires e == LeafAt(lines, i, 0).end && PlainLeaf(lines, i)
    ensures n < e ==> AgreeAt(lines, i, base, d, n)
    ensures n >= e ==> AgreeAt(lines, i, base, d, n) == AgreeAt(lines, e, base, d, n)
  {
    LeafBase(lines, i, base);
    BlocksAtLeaf(lines, i, base, d);
    InCodeSplit(lines, base, d, LeafAt(lines, i, base), e, n);
    if Opens(lines[i]) {
      CodeLeaf(lines, i);
    } else {
      LeafTakesNoFence(lines, i);
      ScanPlain(lines, i, e);
    }
    if n >= e {
      MarkedFrom(lines, i, e, Outside, n);
    }
  }

  lemma NoFenceAtQuote(lines: seq<Line>, i: nat, d: nat, j: nat)
    requires i < |lines| && DepthAtMost(lines, d) && lines[i].Quoted? && j == QuoteEnd(lines, i)
    ensures d > 0 && i < j && DepthAtMost(Inner(lines, i, j), d - 1)
    ensures NoFenceInList(lines, i, d) <==> NoFenceInList(Inner(lines, i, j), 0, d - 1) && NoFenceInList(lines, j, d)
  {
  }

  lemma NoFenceAtLeaf(lines: seq<Line>, i: nat, d: nat)
    requires i < |lines| && DepthAtMost(lines, d) && !IsBlank(lines[i]) && !lines[i].Quoted?
    ensures i < LeafAt(lines, i, 0).end <= |lines|
    ensures NoFenceInList(lines, i, d) <==> PlainLeaf(lines, i) && NoFenceInList(lines, LeafAt(lines, i, 0).end, d)
  {
  }

  /** Where no list takes in a line that opens a fence, the scanner marks exactly the lines the parser puts in
      code blocks, at every quote depth. */
  lemma {:induction false} AgreeEverywhere(lines: seq<Line>, i: nat, base: nat, d: nat, n: nat)
    requires i <= n < |lines| && DepthAtMost(lines, d) && NoFenceInList(lines, i, d)
    ensures AgreeAt(lines, i, base, d, n)
    decreases d, |lines| - i
  {
    if IsBlank(lines[i]) {
      AgreeOnBlank(lines, i, base, d, n);
      if n > i {
        AgreeEverywhere(lines, i + 1, base, d, n);
      }
    } else if lines[i].Quoted? {
      var j := QuoteEnd(lines, i);
      if n < j {
        EverywhereInQuote(lines, i, base, d, j, n);
      } else {
        EverywhereBehindQuote(lines, i, base, d, j, n);
      }
    } else {
      EverywhereFromLeaf(lines, i, base, d, n);
    }
  }

  lemma {:induction false} EverywhereInQuote(lines: seq<Line>, i: nat, base: nat, d: nat, j: nat, n: nat)
    requires i <= n < j <= |lines| && DepthAtMost(lines, d) && NoFenceInList(lines, i, d)
    requires lines[i].Quoted? && j == QuoteEnd(lines, i)
    ensures AgreeAt(lines, i, base, d, n)
    decreases d, |lines| - i, 0
  {
    NoFenceAtQuote(lines, i, d, j);
    var inner := Inner(lines, i, j);
    AgreeEverywhere(inner, 0, base + i, d - 1, n - i);
    AgreeInQuote(lines, inner, i, base, d, j, n);
  }

  lemma {:induction false} EverywhereBehindQuote(lines: seq<Line>, i: nat, base: nat, d: nat, j: nat, n: nat)
    requires i < j <= n < |lines| && DepthAtMost(lines, d) && NoFenceInList(lines, i, d)
    requires lines[i].Quoted? && j == QuoteEnd(lines, i)
    ensures AgreeAt(lines, i, base, d, n)
    decreases d, |lines| - i, 0
  {
    NoFenceAtQuote(lines, i, d, j);
    AgreeEverywhere(lines, j, base, d, n);
    AgreeBehindQuote(lines, i, base, d, j, n);
  }

  lemma {:induction false} EverywhereFromLeaf(lines: seq<Line>, i: nat, base: nat, d: nat, n: nat)
    requires i <= n < |lines| && DepthAtMost(lines, d) && NoFenceInList(lines, i, d)
    requires !IsBlank(lines[i]) && !lines[i].Quoted?
    ensures AgreeAt(lines, i, base, d, n)
    decreases d, |lines| - i, 0
  {
    NoFenceAtLeaf(lines, i, d);
    var e := LeafAt(lines, i, 0).end;
    AgreeOnLeaf(lines, i, base, d, e, n);
    if n >= e {
      AgreeEverywhere(lines, e, base, d, n);
    }
  }

  /** The first opener from i on, up to a known one. */
  lemma {:induction false} FirstOpener(lines: seq<Line>, i: nat, k: nat) returns (m: nat)
    requires i <= k < |lines| && OpensBody(BodyOf(lines[k]))
    ensures i <= m <= k && OpensBody(BodyOf(lines[m])) && forall x :: i <= x < m ==> !OpensBody(BodyOf(lines[x]))
    decreases k - i
  {
    if OpensBody(BodyOf(lines[i])) {
      m := i;
    } else {
      m := FirstOpener(lines, i + 1, k);
    }
  }

  /** Where a list takes in a line that opens a fence, the first such line is code for the scanner only. */
  lemma DisagreeInList(lines: seq<Line>, i: nat, base: nat, d: nat) returns (n: nat)
    requires i < |lines| && DepthAtMost(lines, d) && !IsBlank(lines[i]) && !lines[i].Quoted? && !PlainLeaf(lines, i)
    ensures i <= n < |lines| && !AgreeAt(lines, i, base, d, n)
  {
    var e := LeafAt(lines, i, 0).end;
    var k: nat :| i <= k < e && OpensBody(BodyOf(lines[k]));
    n := FirstOpener(lines, i, k);
    ScanFirstOpener(lines, i, n);
    LeafBase(lines, i, base);
    BlocksAtLeaf(lines, i, base, d);
    InCodeSplit(lines, base, d, LeafAt(lines, i, base), e, n);
  }

  /** And where one does, they disagree somewhere. */
  lemma {:induction false} DisagreeSomewhere(lines: seq<Line>, i: nat, base: nat, d: nat) returns (n: nat)
    requires i <= |lines| && DepthAtMost(lines, d) && !NoFenceInList(lines, i, d)
    ensures i <= n < |lines| && !AgreeAt(lines, i, base, d, n)
    decreases d, |lines| - i
  {
    if IsBlank(lines[i]) {
      n := DisagreeSomewhere(lines, i + 1, base, d);
      AgreeOnBlank(lines, i, base, d, n);
    } else if lines[i].Quoted? {
      n := SomewhereFromQuote(lines, i, base, d);
    } else if PlainLeaf(lines, i) {
      n := SomewhereBehindLeaf(lines, i, base, d);
    } else {
      n := DisagreeInList(lines, i, base, d);
    }
  }

  lemma {:induction false} SomewhereFromQuote(lines: seq<Line>, i: nat, base: nat, d: nat) returns (n: nat)
    requires i < |lines| && DepthAtMost(lines, d) && !NoFenceInList(lines, i, d) && lines[i].Quoted?
    ensures i <= n < |lines| && !AgreeAt(lines, i, base, d, n)
    decreases d, |lines| - i, 0
  {
    var j := QuoteEnd(lines, i);
    NoFenceAtQuote(lines, i, d, j);
    var inner := Inner(lines, i, j);
    if !NoFenceInList(inner, 0, d - 1) {
      var m := DisagreeSomewhere(inner, 0, base + i, d - 1);
      n := i + m;
      AgreeInQuote(lines, inner, i, base, d, j, n);
    } else {
      n := DisagreeSomewhere(lines, j, base, d);
      AgreeBehindQuote(lines, i, base, d, j, n);
    }
  }

  lemma {:induction false} SomewhereBehindLeaf(lines: seq<Line>, i: nat, base: nat, d: nat) returns (n: nat)
    requires i < |lines| && DepthAtMost(lines, d) && !NoFenceInList(lines, i, d)
    requires !IsBlank(lines[i]) && !lines[i].Quoted? && PlainLeaf(lines, i)
    ensures i <= n < |lines| && !AgreeAt(lines, i, base, d, n)
    decreases d, |lines| - i, 0
  {
    NoFenceAtLeaf(lines, i, d);
    var e := LeafAt(lines, i, 0).end;
    n := DisagreeSomewhere(lines, e, base, d);
    AgreeOnLeaf(lines, i, base, d, e, n);
  }

  // ---------------------------------------------------------------- whole documents

  function MaxDepth(lines: seq<Line>): (d: nat)
    ensures DepthAtMost(lines, d)
  {
    if lines == [] then 0
    else
      var n := |lines| - 1;
      var rest := MaxDepth(lines[..n]);
      if Depth(lines[n]) > rest then Depth(lines[n]) else rest
  }

  /** The scanner and the parser, whose lines count from 1, agree on every line of a document. */
  ghost predicate Agree(lines: seq<Line>) {
    forall n :: 0 <= n < |lines| ==> Scan(lines, 0, Outside)[n] == InCode(Blocks(lines, 0, 1, MaxDepth(lines)), n + 1)
  }

  /** They agree exactly when no list takes in a line that opens a fence. */
  lemma ScannerIsParser(lines: seq<Line>)
    ensures Agree(lines) <==> NoFenceInList(lines, 0, MaxDepth(lines))
  {
    var d := MaxDepth(lines);
    if NoFenceInList(lines, 0, d) {
      forall n | 0 <= n < |lines|
        ensures Scan(lines, 0, Outside)[n] == InCode(Blocks(lines, 0, 1, d), n + 1)
      {
        AgreeEverywhere(lines, 0, 1, d, n);
        MarkedIsScan(lines, 0, Outside, n);
      }
    } else {
      var n := DisagreeSomewhere(lines, 0, 1, d);
      MarkedIsScan(lines, 0, Outside, n);
    }
  }

  // ---------------------------------------------------------------- what a fence is

  /** A line of three or more equal fence characters, behind its quote markers; behind backticks there is no other
      backtick. */
  ghost predicate OpensFence(ln: Line) {
    var b := BodyOf(ln);
    b.fence.Some? && (b.fence.value.tick ==> !b.fence.value.info.WordsWithTick?)
  }

  /** The line ends the fence that `first` opened: it is as deep in quotes, of the same character, at least as long, and
      there is nothing behind it. */
  ghost predicate EndsFence(first: Line, ln: Line)
    requires OpensFence(first)
  {
    var b, o := BodyOf(ln), BodyOf(first).fence.value;
    && Depth(ln) == Depth(first) && b.fence.Some?
    && (b.fence.value.tick <==> o.tick) && o.len <= b.fence.value.len && b.fence.value.info == Nothing
  }

  /** All lines behind o and before n lie in o's quote, and none of them ends its fence. */
  ghost predicate StaysOpen(lines: seq<Line>, o: nat, n: nat)
    requires o < n <= |lines| && OpensFence(lines[o])
  {
    forall k :: o < k < n ==> Depth(lines[o]) <= Depth(lines[k]) && !EndsFence(lines[o], lines[k])
  }

  /** Line n belongs to the fence that line o opens: it is that line, or one up to the end of the fence or of its
      quote. */
  ghost predicate InFence(lines: seq<Line>, o: nat, n: nat)
    requires o <= n < |lines| && OpensFence(lines[o])
  {
    o == n || (StaysOpen(lines, o, n) && Depth(lines[o]) <= Depth(lines[n]))
  }

  /** Line o opens a fence: it has the form, and belongs to no fence opened before. */
  ghost predicate StartsFence(lines: seq<Line>, o: nat)
    requires o < |lines|
    decreases o
  {
    OpensFence(lines[o]) && forall p :: 0 <= p < o && StartsFence(lines, p) ==> !InFence(lines, p, o)
  }

  ghost predicate IsCode(lines: seq<Line>, n: nat)
    requires n < |lines|
  {
    exists o :: 0 <= o <= n && StartsFence(lines, o) && InFence(lines, o, n)
  }

  /** A fence that is open before line n. */
  ghost predicate OpenAt(lines: seq<Line>, o: nat, n: nat)
    requires n <= |lines|
  {
    o < n && StartsFence(lines, o) && StaysOpen(lines, o, n)
  }

  /** No two fences are open at once. */
  lemma OneIsOpen(lines: seq<Line>, o: nat, p: nat, n: nat)
    requires n <= |lines| && OpenAt(lines, o, n) && OpenAt(lines, p, n)
    ensures o == p
  {
  }

  /** The state of the scanner before line n is the fence that is open there. */
  ghost predicate Knows(lines: seq<Line>, st: State, n: nat)
    requires n <= |lines|
  {
    match st
    case Outside => forall o :: 0 <= o < n ==> !OpenAt(lines, o, n)
    case Inside(f, depth) => exists o :: IsThatFence(lines, o, n, f, depth)
  }

  ghost predicate IsThatFence(lines: seq<Line>, o: nat, n: nat, f: Fence, depth: nat)
    requires n <= |lines|
  {
    OpenAt(lines, o, n) && BodyOf(lines[o]).fence == Some(f) && Depth(lines[o]) == depth
  }

  lemma {:induction false} DepthOfStrip(ln: Line, n: nat)
    requires n <= Depth(ln)
    ensures Depth(Strip(ln, n)) == Depth(ln) - n && BodyOf(Strip(ln, n)) == BodyOf(ln)
  {
    if n > 0 {
      DepthOfStrip(ln.rest, n - 1);
    }
  }

  lemma ClosesIsEnds(first: Line, ln: Line)
    requires OpensFence(first) && Depth(first) <= Depth(ln)
    ensures Closes(Strip(ln, Depth(first)), BodyOf(first).fence.value) <==> EndsFence(first, ln)
  {
    DepthOfStrip(ln, Depth(first));
  }

  /** A line in a fence that is open. */
  lemma StepInFence(lines: seq<Line>, o: nat, n: nat, st: State)
    requires n < |lines| && st.Inside? && IsThatFence(lines, o, n, st.f, st.depth) && st.depth <= Depth(lines[n])
    ensures ScanLine(lines[n], st).0 && IsCode(lines, n) && Knows(lines, ScanLine(lines[n], st).1, n + 1)
  {
    ClosesIsEnds(lines[o], lines[n]);
    assert InFence(lines, o, n);
    if EndsFence(lines[o], lines[n]) {
      var m := n + 1;
      forall p: nat | p < m
        ensures !OpenAt(lines, p, m)
      {
        if OpenAt(lines, p, m) && p < n {
          assert OpenAt(lines, p, n);
          OneIsOpen(lines, o, p, n);
        }
      }
    } else {
      assert IsThatFence(lines, o, n + 1, st.f, st.depth);
    }
  }

  /** A line that no open fence reaches. */
  lemma StepOutside(lines: seq<Line>, n: nat, st: State)
    requires n < |lines| && Knows(lines, st, n) && (st.Inside? ==> Depth(lines[n]) < st.depth)
    ensures ScanLine(lines[n], st).0 == IsCode(lines, n) && Knows(lines, ScanLine(lines[n], st).1, n + 1)
  {
    forall p | 0 <= p < n && OpenAt(lines, p, n)
      ensures Depth(lines[n]) < Depth(lines[p])
    {
      if st.Inside? {
        var o :| IsThatFence(lines, o, n, st.f, st.depth);
        OneIsOpen(lines, o, p, n);
      }
    }
    forall p | 0 <= p < n && StartsFence(lines, p)
      ensures !InFence(lines, p, n) && !OpenAt(lines, p, n + 1)
    {
      if StaysOpen(lines, p, n) {
        assert OpenAt(lines, p, n);
      }
    }
    if OpensFence(lines[n]) {
      assert StartsFence(lines, n) && InFence(lines, n, n);
      assert IsThatFence(lines, n, n + 1, BodyOf(lines[n]).fence.value, Depth(lines[n]));
    }
  }

  lemma StepKnows(lines: seq<Line>, n: nat, st: State)
    requires n < |lines| && Knows(lines, st, n)
    ensures ScanLine(lines[n], st).0 == IsCode(lines, n) && Knows(lines, ScanLine(lines[n], st).1, n + 1)
  {
    if st.Inside? && st.depth <= Depth(lines[n]) {
      var o :| IsThatFence(lines, o, n, st.f, st.depth);
      StepInFence(lines, o, n, st);
    } else {
      StepOutside(lines, n, st);
    }
  }

  lemma {:induction false} ScanKnows(lines: seq<Line>, i: nat, st: State, n: nat)
    requires i <= n < |lines| && Knows(lines, st, i)
    ensures Marked(lines, i, st, n) == IsCode(lines, n)
    decreases n - i
  {
    StepKnows(lines, i, st);
    if i < n {
      ScanKnows(lines, i + 1, ScanLine(lines[i], st).1, n);
    }
  }

  /** Said of the lines themselves: the scanner marks a line exactly when it belongs to a fence, which begins with a
      line of fence characters outside all others and goes on to the first line of its quote that is of the same
      character, no shorter and bare, or to the end of the quote. */
  lemma ScanIsCode(lines: seq<Line>, n: nat)
    requires n < |lines|
    ensures Scan(lines, 0, Outside)[n] <==> IsCode(lines, n)
  {
    ScanKnows(lines, 0, Outside, n);
    MarkedIsScan(lines, 0, Outside, n);
  }

  lemma {:induction false} CodeEndIs(lines: seq<Line>, first: Line, j: nat)
    requires j <= |lines| && OpensFence(first) && Depth(first) == 0
    ensures var e := CodeEnd(lines, j, BodyOf(first).fence.value);
            && (forall k :: j <= k < e ==> !EndsFence(first, lines[k]))
            && (e < |lines| ==> EndsFence(first, lines[e]))
    decreases |lines| - j
  {
    if j < |lines| {
      ClosesIsEnds(first, lines[j]);
      if !EndsFence(first, lines[j]) {
        CodeEndIs(lines, first, j + 1);
      }
    }
  }

  /** A code block of the parser goes from its opening line to the first line that ends the fence, or to the end of the
      quote or document. */
  lemma CodeBlockIs(lines: seq<Line>, i: nat)
    requires i < |lines| && OpensFence(lines[i]) && Depth(lines[i]) == 0 && !IsBlank(lines[i])
    ensures var b := LeafAt(lines, i, 0);
            && b.Code? && b.line == i
            && (forall k :: i < k < b.end - 1 ==> !EndsFence(lines[i], lines[k]))
            && (b.end < |lines| ==> b.end - 1 > i && EndsFence(lines[i], lines[b.end - 1]))
  {
    CodeEndIs(lines, lines[i], i + 1);
  }

  // ---------------------------------------------------------------- what a block is

  /** A table begins at line k: a line with a bar, and under it an unquoted delimiter line with one. */
  ghost predicate BeginsTable(lines: seq<Line>, k: nat) {
    && k + 1 < |lines| && BodyOf(lines[k]).pipe && lines[k + 1].Text?
    && lines[k + 1].body.pipe && lines[k + 1].body.delim
  }

  /** The line begins a block of its own even right behind a paragraph: a fence, a heading, a rule, a quote, a table, a
      figure, or an item with text that has a bullet or the number 1. */
  ghost predicate BeginsBlock(lines: seq<Line>, k: nat)
    requires k < |lines|
  {
    match lines[k]
    case Quoted(_, _) => true
    case Text(b) =>
      || OpensFence(lines[k]) || b.heading || b.hr || b.figure || BeginsTable(lines, k)
      || (b.marker.Some? && b.marker.value.text && (b.marker.value.ordered ==> b.marker.value.one))
  }

  lemma InterruptsIs(lines: seq<Line>, k: nat)
    requires k < |lines|
    ensures Interrupts(lines, k) <==> BeginsBlock(lines, k)
    ensures TableStart(lines, k) <==> BeginsTable(lines, k)
  {
  }

  ghost predicate EndsPara(lines: seq<Line>, k: nat)
    requires k < |lines|
  {
    (lines[k].Text? && (lines[k].body.blank || lines[k].body.setext)) || BeginsBlock(lines, k)
  }

  lemma {:induction false} ParaEndIs(lines: seq<Line>, j: nat)
    requires j <= |lines|
    ensures var e := ParaEnd(lines, j);
            (forall k :: j <= k < e ==> !EndsPara(lines, k)) && (e < |lines| ==> EndsPara(lines, e))
    decreases |lines| - j
  {
    if j < |lines| {
      InterruptsIs(lines, j);
      if !EndsPara(lines, j) {
        ParaEndIs(lines, j + 1);
      }
    }
  }

  ghost predicate IsRow(ln: Line) {
    ln.Text? && !ln.body.blank && ln.body.pipe && !OpensFence(ln) && !ln.body.heading
  }

  lemma {:induction false} TableEndIs(lines: seq<Line>, j: nat)
    requires j <= |lines|
    ensures var e := TableEnd(lines, j);
            (forall k :: j <= k < e ==> IsRow(lines[k])) && (e < |lines| ==> !IsRow(lines[e]))
    decreases |lines| - j
  {
    if j < |lines| && IsRow(lines[j]) {
      TableEndIs(lines, j + 1);
    }
  }

  /** A line is an item of a list. */
  ghost predicate IsItemLine(ln: Line) { ln.Text? && ln.body.marker.Some? && !ln.body.hr }

  /** Line k is the first that is not blank behind line j. */
  ghost predicate IsNext(lines: seq<Line>, j: int, k: int) {
    && 0 <= j < k < |lines| && !IsBlank(lines[k]) && forall m :: j < m < k ==> IsBlank(lines[m])
  }

  /** Line k ends a list whose first item is indented by `first`: a blank line, unless an item follows or a line that is
      indented two more and begins no fence or table; or a line that is no item and begins a fence, a table, or, if
      indented by less than two, any block. */
  ghost predicate EndsList(lines: seq<Line>, k: nat, first: nat)
    requires k < |lines|
  {
    if IsItemLine(lines[k]) then false
    else if IsBlank(lines[k]) then
      forall n :: IsNext(lines, k, n) ==>
        !IsItemLine(lines[n])
        && (Indent(lines[n]) < first + 2 || (lines[n].Text? && OpensFence(lines[n])) || BeginsTable(lines, n))
    else
      || (lines[k].Text? && OpensFence(lines[k])) || BeginsTable(lines, k)
      || (Indent(lines[k]) < 2 && BeginsBlock(lines, k))
  }

  lemma {:induction false} NonBlankIs(lines: seq<Line>, j: nat)
    requires j <= |lines|
    ensures var e := NonBlank(lines, j);
            (forall m :: j <= m < e ==> IsBlank(lines[m])) && (e < |lines| ==> !IsBlank(lines[e]))
    decreases |lines| - j
  {
    if j < |lines| && IsBlank(lines[j]) {
      NonBlankIs(lines, j + 1);
    }
  }

  lemma GapGoesOn(lines: seq<Line>, j: nat, first: nat)
    requires j < |lines| && IsBlank(lines[j]) && !IsItemLine(lines[j])
    ensures var k := NonBlank(lines, j + 1);
            && (k < |lines| ==> IsNext(lines, j, k) && forall n :: IsNext(lines, j, n) ==> n == k)
            && (k == |lines| ==> forall n :: !IsNext(lines, j, n))
            && (EndsList(lines, j, first) <==> ListEnd(lines, j, first) == j)
            && (!EndsList(lines, j, first) ==> k < |lines| && ListEnd(lines, j, first) == ListEnd(lines, k, first))
  {
    var k := NonBlank(lines, j + 1);
    NonBlankIs(lines, j + 1);
    if k < |lines| {
      InterruptsIs(lines, k);
    }
  }

  lemma ListGoesOn(lines: seq<Line>, j: nat, first: nat)
    requires j < |lines| && !(IsBlank(lines[j]) && !IsItemLine(lines[j]))
    ensures ListEnd(lines, j, first) == if EndsList(lines, j, first) then j else ListEnd(lines, j + 1, first)
  {
    InterruptsIs(lines, j);
  }

  /** A list ends at the first line from j on that ends it. */
  lemma {:induction false} ListEndIs(lines: seq<Line>, j: nat, first: nat)
    requires j <= |lines|
    ensures var e := ListEnd(lines, j, first);
            && (e < |lines| ==> EndsList(lines, e, first))
            && forall k :: j <= k < e ==> !EndsList(lines, k, first)
    decreases |lines| - j
  {
    if j < |lines| {
      if IsBlank(lines[j]) && !IsItemLine(lines[j]) {
        GapGoesOn(lines, j, first);
        if !EndsList(lines, j, first) {
          GapThenList(lines, j, first);
        }
      } else {
        ListGoesOn(lines, j, first);
        if !EndsList(lines, j, first) {
          ListEndIs(lines, j + 1, first);
        }
      }
    }
  }

  lemma {:induction false} GapThenList(lines: seq<Line>, j: nat, first: nat)
    requires j < |lines| && IsBlank(lines[j]) && !IsItemLine(lines[j]) && !EndsList(lines, j, first)
    requires ListEnd(lines, j, first) == ListEnd(lines, NonBlank(lines, j + 1), first)
    ensures var e := ListEnd(lines, j, first);
            && (e < |lines| ==> EndsList(lines, e, first))
            && forall k :: j <= k < e ==> !EndsList(lines, k, first)
    decreases |lines| - j, 0
  {
    var n := NonBlank(lines, j + 1);
    NonBlankIs(lines, j + 1);
    ListEndIs(lines, n, first);
  }

  /** What a block other than code or a quote is, and where it ends. */
  lemma LeafIs(lines: seq<Line>, i: nat)
    requires i < |lines| && lines[i].Text? && !lines[i].body.blank && !OpensFence(lines[i])
    ensures var b, ln := LeafAt(lines, i, 0), lines[i].body;
            && b.Leaf? && b.line == i
            && if ln.heading then b == Leaf(Heading, i, i + 1)
               else if ln.hr then b == Leaf(Hr, i, i + 1)
               else if BeginsTable(lines, i) then
                 && b.kind.Table? && i + 2 <= b.end
                 && (forall k :: i + 2 <= k < b.end ==> IsRow(lines[k])) && (b.end < |lines| ==> !IsRow(lines[b.end]))
               else if ln.marker.Some? then
                 && b.kind.List? && (b.end < |lines| ==> EndsList(lines, b.end, ln.indent))
                 && (forall k :: i < k < b.end ==> !EndsList(lines, k, ln.indent))
               else if ln.figure then b == Leaf(Figure, i, i + 1)
               else
                 var e := if b.kind.Heading? then b.end - 1 else b.end;
                 && (b.kind.Heading? || b.kind.Para?) && i < e && (b.kind.Heading? ==> IsSetext(lines[e]))
                 && (forall k :: i < k < e ==> !EndsPara(lines, k)) && (e < |lines| ==> EndsPara(lines, e))
                 && (b.kind.Para? && e < |lines| ==> !IsSetext(lines[e]))
  {
    InterruptsIs(lines, i);
    if i + 2 <= |lines| {
      TableEndIs(lines, i + 2);
    }
    ListEndIs(lines, i + 1, Indent(lines[i]));
    ParaEndIs(lines, i + 1);
  }

  /** Every quote marker of the line is indented by less than 2. */
  predicate Flush(ln: Line) { ln.Quoted? ==> ln.indent < 2 && Flush(ln.rest) }

  /** No list items at all, or no quote marker indented by 2 or more. */
  ghost predicate Tame(lines: seq<Line>) {
    || (forall k :: 0 <= k < |lines| ==> BodyOf(lines[k]).marker.None?)
    || (forall k :: 0 <= k < |lines| ==> Flush(lines[k]))
  }

  lemma {:induction false} ListTakesNoQuote(lines: seq<Line>, j: nat, first: nat)
    requires j <= |lines| && forall k :: 0 <= k < |lines| ==> Flush(lines[k])
    ensures forall k :: j <= k < ListEnd(lines, j, first) ==> !OpensBody(BodyOf(lines[k]))
    decreases |lines| - j
  {
    if j < ListEnd(lines, j, first) {
      assert lines[j].Text? && !OpensBody(BodyOf(lines[j]));
      if IsBlank(lines[j]) && !(IsItem(lines[j]) && !IsHr(lines[j])) {
        ListTakesNoQuote(lines, NonBlank(lines, j + 1), first);
      } else {
        ListTakesNoQuote(lines, j + 1, first);
      }
    }
  }

  lemma {:induction false} TameIsEnough(lines: seq<Line>, i: nat, d: nat)
    requires i <= |lines| && DepthAtMost(lines, d) && Tame(lines)
    ensures NoFenceInList(lines, i, d)
    decreases d, |lines| - i
  {
    if i == |lines| {
    } else if IsBlank(lines[i]) {
      TameIsEnough(lines, i + 1, d);
    } else if lines[i].Quoted? {
      var j := QuoteEnd(lines, i);
      NoFenceAtQuote(lines, i, d, j);
      assert Tame(Inner(lines, i, j));
      TameIsEnough(Inner(lines, i, j), 0, d - 1);
      TameIsEnough(lines, j, d);
    } else {
      NoFenceAtLeaf(lines, i, d);
      if IsItem(lines[i]) {
        ListTakesNoQuote(lines, i + 1, Indent(lines[i]));
      }
      TameIsEnough(lines, LeafAt(lines, i, 0).end, d);
    }
  }

  lemma TameDocumentsAgree(lines: seq<Line>)
    requires Tame(lines)
    ensures Agree(lines)
  {
    TameIsEnough(lines, 0, MaxDepth(lines));
    ScannerIsParser(lines);
  }

  const PLAIN: Body := Body(false, 0, None, false, false, false, false, false, false, None)

  /** A list item, and under it a quoted fence indented by 2: the scanner calls the fence code, to the parser it is
      text of the item. */
  lemma AListHidesAFence()
    ensures var item := Text(PLAIN.(marker := Some(Marker(false, false, true))));
            var fence := Quoted(2, Text(PLAIN.(fence := Some(Fence(true, 3, Nothing)))));
            !Agree([item, fence])
  {
    var item := Text(PLAIN.(marker := Some(Marker(false, false, true))));
    var fence := Quoted(2, Text(PLAIN.(fence := Some(Fence(true, 3, Nothing)))));
    var lines := [item, fence];
    assert ListEnd(lines, 2, 0) == 2;
    assert ListEnd(lines, 1, 0) == 2;
    assert LeafAt(lines, 0, 0) == Leaf(List, 0, 2);
    assert OpensBody(BodyOf(lines[1]));
    assert !PlainLeaf(lines, 0);
    ScannerIsParser(lines);
  }
}
