/** The three readers of infra/.env: the router's env_values with read_env and config_from_text
    (infra/llm-router/llm_router.py), the collector's env_values (infra/llm-status/collector.py)
    and the orchestrator's _infra_value (infra/scripts/services.py). */
module EnvFile {
  import opened Options

  // ---------------------------------------------------------------- characters

  /** The blanks of a line: the ASCII six without the line feed. */
  predicate Blank(c: char) { c == ' ' || c == '\t' || c == '\U{0B}' || c == '\U{0C}' || c == '\r' }

  predicate Blanks(s: string) { forall i :: 0 <= i < |s| ==> Blank(s[i]) }

  predicate KeyStart(c: char) { 'A' <= c <= 'Z' || 'a' <= c <= 'z' || c == '_' }

  predicate KeyChar(c: char) { KeyStart(c) || '0' <= c <= '9' }

  const CAPITALS := "ABCDEFGHIJKLMNOPQRSTUVWXYZ"

  const SMALL := "abcdefghijklmnopqrstuvwxyz"

  const DIGITS := "0123456789"

  predicate Identifier(s: string) {
    s != [] && KeyStart(s[0]) && forall i :: 0 <= i < |s| ==> KeyChar(s[i])
  }

  const EXPORT := "export"

  // ---------------------------------------------------------------- the pattern of a line

  /** What may stand before the key: blanks, or blanks, `export` and at least one blank. */
  ghost predicate Prefix(p: string) {
    Blanks(p) || exists i, j :: ExportAt(p, i, j)
  }

  /** p is i blanks, `export`, and j - i - 6 > 0 blanks. */
  ghost predicate ExportAt(p: string, i: int, j: int) {
    && 0 <= i && i + |EXPORT| < j == |p|
    && Blanks(p[..i]) && p[i..i + |EXPORT|] == EXPORT && Blanks(p[i + |EXPORT|..])
  }

  /** The readers' pattern: prefix, key, `=` and the rest. n is the length of the prefix. */
  ghost predicate MatchAt(line: string, key: string, rest: string, n: nat) {
    n <= |line| && Prefix(line[..n]) && line == line[..n] + key + "=" + rest
  }

  ghost predicate Matches(line: string, key: string, rest: string) { exists n: nat :: MatchAt(line, key, rest, n) }

  function SkipBlanks(s: string, i: nat): (j: nat)
    requires i <= |s|
    ensures i <= j <= |s| && Blanks(s[i..j]) && (j < |s| ==> !Blank(s[j]))
    decreases |s| - i
  {
    if i < |s| && Blank(s[i]) then
      var j := SkipBlanks(s, i + 1);
      assert forall k :: 0 <= k < j - i ==> s[i..j][k] == if k == 0 then s[i] else s[i + 1..j][k - 1];
      j
    else i
  }

  /** The end of the longest run of key characters from i on. */
  function KeyEnd(s: string, i: nat): (e: nat)
    requires i <= |s|
    ensures i <= e <= |s| && (forall k :: i <= k < e ==> KeyChar(s[k])) && (e < |s| ==> !KeyChar(s[e]))
    decreases |s| - i
  {
    if i < |s| && KeyChar(s[i]) then KeyEnd(s, i + 1) else i
  }

  /** Where the key starts when the line has no `export`. */
  function PlainStart(line: string): nat { SkipBlanks(line, 0) }

  predicate HasExport(line: string) {
    var i := PlainStart(line);
    i + |EXPORT| < |line| && line[i..i + |EXPORT|] == EXPORT && Blank(line[i + |EXPORT|])
  }

  /** Where the key starts when the line has `export`. */
  function ExportStart(line: string): (n: nat)
    requires HasExport(line)
    ensures PlainStart(line) + |EXPORT| < n <= |line|
  {
    SkipBlanks(line, PlainStart(line) + |EXPORT|)
  }

  lemma PlainPrefix(line: string)
    ensures PlainStart(line) <= |line| && Prefix(line[..PlainStart(line)])
  {
    assert line[0..PlainStart(line)] == line[..PlainStart(line)];
  }

  lemma ExportPrefix(line: string)
    requires HasExport(line)
    ensures Prefix(line[..ExportStart(line)])
  {
    var i, n := PlainStart(line), ExportStart(line);
    var p := line[..n];
    assert line[0..i] == p[..i];
    assert line[i + |EXPORT|..n] == p[i + |EXPORT|..];
    assert p[i..i + |EXPORT|] == line[i..i + |EXPORT|];
    assert ExportAt(p, i, n);
  }

  /** A prefix that ends before a character which is no blank ends at one of the two starts. */
  lemma PrefixEnds(line: string, n: nat)
    requires n < |line| && Prefix(line[..n]) && !Blank(line[n])
    ensures n == PlainStart(line) || (HasExport(line) && n == ExportStart(line))
  {
    var p := line[..n];
    var start := PlainStart(line);
    if Blanks(p) {
      SkipsAll(line, 0, n);
    } else {
      var i, j :| ExportAt(p, i, j);
      assert line[i] == p[i..i + |EXPORT|][0] == 'e';
      assert forall k :: 0 <= k < i ==> line[k] == p[..i][k];
      SkipsAll(line, 0, i);
      SliceOfPrefix(line, n, i, i + |EXPORT|);
      var m := i + |EXPORT|;
      assert line[m] == p[m..][0];
      forall k | m <= k < n
        ensures Blank(line[k])
      {
        assert line[k] == p[m..][k - m];
      }
      SkipsAll(line, m, n);
    }
  }

  lemma SliceOfPrefix(s: string, n: nat, i: nat, j: nat)
    requires i <= j <= n <= |s|
    ensures s[..n][i..j] == s[i..j]
  {
  }

  lemma {:induction false} SkipsAll(s: string, i: nat, n: nat)
    requires i <= n < |s| && (forall k :: i <= k < n ==> Blank(s[k])) && !Blank(s[n])
    ensures SkipBlanks(s, i) == n
    decreases n - i
  {
    if i < n {
      SkipsAll(s, i + 1, n);
    }
  }

  // ---------------------------------------------------------------- the two matchers

  /** Any key at position n, followed by `=`. */
  function AnyKeyAt(line: string, n: nat): (r: Option<(string, string)>)
    requires n <= |line|
  {
    var e := KeyEnd(line, n);
    if n < |line| && KeyStart(line[n]) && e < |line| && line[e] == '=' then Some((line[n..e], line[e + 1..])) else None
  }

  /** _ENV_LINE: the line's key and what follows its `=`. */
  function AnyKey(line: string): Option<(string, string)> {
    var m := if HasExport(line) then AnyKeyAt(line, ExportStart(line)) else None;
    PlainPrefix(line);
    if m.Some? then m else AnyKeyAt(line, PlainStart(line))
  }

  function OneKeyAt(line: string, n: nat, key: string): Option<string>
    requires n <= |line|
  {
    var e := n + |key|;
    if e < |line| && line[n..e] == key && line[e] == '=' then Some(line[e + 1..]) else None
  }

  /** The pattern of _infra_value, made for one key. */
  function OneKey(line: string, key: string): Option<string> {
    var m := if HasExport(line) then OneKeyAt(line, ExportStart(line), key) else None;
    PlainPrefix(line);
    if m.Some? then m else OneKeyAt(line, PlainStart(line), key)
  }

  lemma AnyKeyAtMatches(line: string, n: nat, key: string, rest: string)
    requires n <= |line| && Identifier(key)
    ensures AnyKeyAt(line, n) == Some((key, rest)) <==> line == line[..n] + key + "=" + rest
  {
    if line == line[..n] + key + "=" + rest {
      assert line[n..n + |key|] == key && line[n + |key|] == '=';
      assert forall k :: n <= k < n + |key| ==> line[k] == key[k - n];
      KeyEndIs(line, n, n + |key|);
      assert line[n + |key| + 1..] == rest;
    }
    if AnyKeyAt(line, n) == Some((key, rest)) {
      var e := KeyEnd(line, n);
      assert line == line[..n] + line[n..e] + [line[e]] + line[e + 1..];
    }
  }

  lemma {:induction false} KeyEndIs(s: string, i: nat, e: nat)
    requires i <= e < |s| && (forall k :: i <= k < e ==> KeyChar(s[k])) && !KeyChar(s[e])
    ensures KeyEnd(s, i) == e
    decreases e - i
  {
    if i < e {
      KeyEndIs(s, i + 1, e);
    }
  }

  lemma AnyKeyAtIdentifier(line: string, n: nat)
    requires n <= |line| && AnyKeyAt(line, n).Some?
    ensures Identifier(AnyKeyAt(line, n).value.0)
  {
    var e := KeyEnd(line, n);
    assert e > n;
  }

  /** Whatever the line, a key that is read is an identifier. */
  lemma AnyKeyIsIdentifier(line: string)
    ensures AnyKey(line).Some? ==> Identifier(AnyKey(line).value.0)
  {
    if HasExport(line) && AnyKeyAt(line, ExportStart(line)).Some? {
      AnyKeyAtIdentifier(line, ExportStart(line));
    } else if AnyKey(line).Some? {
      PlainPrefix(line);
      AnyKeyAtIdentifier(line, PlainStart(line));
    }
  }

  lemma OneKeyAtMatches(line: string, n: nat, key: string, rest: string)
    requires n <= |line|
    ensures OneKeyAt(line, n, key) == Some(rest) <==> line == line[..n] + key + "=" + rest
  {
    if line == line[..n] + key + "=" + rest {
      assert line[n..n + |key|] == key && line[n + |key|] == '=';
      assert line[n + |key| + 1..] == rest;
    }
    if OneKeyAt(line, n, key) == Some(rest) {
      assert line == line[..n] + line[n..n + |key|] + [line[n + |key|]] + line[n + |key| + 1..];
    }
  }

  ghost predicate KeyThere(line: string, s: nat, key: string) {
    s + |key| < |line| && forall k :: 0 <= k < |key| ==> line[s + k] == key[k]
  }

  lemma SplitShowsKey(line: string, s: nat, key: string, rest: string)
    requires s <= |line|
    ensures line == line[..s] + key + "=" + rest ==> KeyThere(line, s, key) && line[s + |key|] == '='
  {
  }

  lemma ExportIsNoKey(line: string, key: string)
    requires HasExport(line) && Identifier(key)
    ensures KeyThere(line, PlainStart(line), key) ==> line[PlainStart(line) + |key|] != '='
  {
    var s := PlainStart(line);
    forall k | 0 <= k < |EXPORT|
      ensures line[s + k] == EXPORT[k] != '='
    {
      assert line[s + k] == line[s..s + |EXPORT|][k];
    }
    assert |key| > |EXPORT| ==> KeyChar(key[|EXPORT|]);
  }

  /** With `export` and a blank in front, no key starts at the word export itself. */
  lemma NoKeyIsExport(line: string, key: string, rest: string)
    requires HasExport(line) && Identifier(key)
    ensures line != line[..PlainStart(line)] + key + "=" + rest
  {
    SplitShowsKey(line, PlainStart(line), key, rest);
    ExportIsNoKey(line, key);
  }

  lemma PlainMatch(line: string, key: string, rest: string)
    requires Identifier(key)
    ensures line == line[..PlainStart(line)] + key + "=" + rest ==> Matches(line, key, rest)
  {
    PlainPrefix(line);
    if line == line[..PlainStart(line)] + key + "=" + rest {
      assert MatchAt(line, key, rest, PlainStart(line));
    }
  }

  lemma ExportMatch(line: string, key: string, rest: string)
    requires Identifier(key) && HasExport(line)
    ensures line == line[..ExportStart(line)] + key + "=" + rest ==> Matches(line, key, rest)
  {
    ExportPrefix(line);
    if line == line[..ExportStart(line)] + key + "=" + rest {
      assert MatchAt(line, key, rest, ExportStart(line));
    }
  }

  /** A match is a match at one of the two starts. */
  lemma MatchStarts(line: string, key: string, rest: string)
    requires Identifier(key) && Matches(line, key, rest)
    ensures line == line[..PlainStart(line)] + key + "=" + rest
         || (HasExport(line) && line == line[..ExportStart(line)] + key + "=" + rest)
  {
    var n: nat :| MatchAt(line, key, rest, n);
    assert line[n] == key[0];
    PrefixEnds(line, n);
  }

  /** Both matchers find exactly the pattern: the key is a whole identifier, before `=`, behind blanks
      and an optional `export`. */
  lemma OneKeyIsThePattern(line: string, key: string, rest: string)
    requires Identifier(key)
    ensures OneKey(line, key) == Some(rest) <==> Matches(line, key, rest)
  {
    PlainPrefix(line);
    PlainMatch(line, key, rest);
    OneKeyAtMatches(line, PlainStart(line), key, rest);
    if HasExport(line) {
      ExportMatch(line, key, rest);
      OneKeyAtMatches(line, ExportStart(line), key, rest);
      NoKeyIsExport(line, key, rest);
    }
    if Matches(line, key, rest) {
      MatchStarts(line, key, rest);
    }
  }

  lemma AnyKeyIsThePattern(line: string, key: string, rest: string)
    requires Identifier(key)
    ensures AnyKey(line) == Some((key, rest)) <==> Matches(line, key, rest)
  {
    PlainPrefix(line);
    PlainMatch(line, key, rest);
    AnyKeyAtMatches(line, PlainStart(line), key, rest);
    if HasExport(line) {
      ExportMatch(line, key, rest);
      AnyKeyAtMatches(line, ExportStart(line), key, rest);
      NoKeyIsExport(line, key, rest);
    }
    if Matches(line, key, rest) {
      MatchStarts(line, key, rest);
    }
  }

  // ---------------------------------------------------------------- values

  /** Is there a `#` after nothing but blanks from i on? */
  predicate CommentAfter(v: string, i: nat)
    requires i <= |v|
  {
    var j := SkipBlanks(v, i);
    j < |v| && v[j] == '#'
  }

  /** _INLINE_COMMENT: everything from the first blank before a `#` on is cut. */
  function CutComment(v: string, i: nat): (r: string)
    requires i <= |v|
    ensures r <= v && |r| >= i
    decreases |v| - i
  {
    if i == |v| then v
    else if Blank(v[i]) && CommentAfter(v, i) then v[..i]
    else CutComment(v, i + 1)
  }

  function StripRight(v: string): string {
    if v != [] && (Blank(v[|v| - 1]) || v[|v| - 1] == '\n') then StripRight(v[..|v| - 1]) else v
  }

  function StripLeft(v: string): string {
    if v != [] && (Blank(v[0]) || v[0] == '\n') then StripLeft(v[1..]) else v
  }

  /** replace(c, ""): every c is dropped. */
  function Without(v: string, c: char): string {
    if v == [] then [] else Without(v[..|v| - 1], c) + (if v[|v| - 1] == c then [] else [v[|v| - 1]])
  }

  /** What all readers do first with what follows the `=`. */
  function Trimmed(rest: string): string { StripLeft(StripRight(CutComment(rest, 0))) }

  function NoQuotes(v: string): string { Without(Without(v, '"'), '\'') }

  function NoControls(v: string): string { Without(Without(v, '\r'), '\0') }

  lemma {:induction false} WithoutCommutes(v: string, c: char, d: char)
    ensures Without(Without(v, c), d) == Without(Without(v, d), c)
  {
    if v != [] {
      var n := |v| - 1;
      WithoutCommutes(v[..n], c, d);
      WithoutSnoc(Without(v[..n], c), v[n], d);
      WithoutSnoc(Without(v[..n], d), v[n], c);
    }
  }

  lemma WithoutSnoc(v: string, x: char, c: char)
    ensures Without(v + [x], c) == Without(v, c) + (if x == c then [] else [x])
    ensures v + [] == v
  {
    assert (v + [x])[..|v|] == v;
  }

  /** Control characters and quotes can be dropped in either order. */
  lemma DropsCommute(v: string)
    ensures NoQuotes(NoControls(v)) == NoControls(NoQuotes(v))
  {
    var q, s, r, z := '"', '\'', '\r', '\0';
    WithoutCommutes(Without(v, r), z, q);
    WithoutCommutes(v, r, q);
    WithoutCommutes(Without(Without(v, q), r), z, s);
    WithoutCommutes(Without(v, q), r, s);
  }

  // ---------------------------------------------------------------- lines

  /** text.split("\n") */
  function Lines(text: string): (r: seq<string>)
    ensures r != []
  {
    if text == [] then [[]]
    else
      var before, c := Lines(text[..|text| - 1]), text[|text| - 1];
      if c == '\n' then before + [[]]
      else before[..|before| - 1] + [before[|before| - 1] + [c]]
  }

  /** What a file says of a key: the value of its last line. */
  function Said(lines: seq<string>, key: string, value: string -> string): Option<string> {
    if lines == [] then None
    else
      var m := OneKey(lines[|lines| - 1], key);
      if m.Some? then Some(value(m.value)) else Said(lines[..|lines| - 1], key, value)
  }

  // ---------------------------------------------------------------- the readers

  function RouterValue(rest: string): string { NoQuotes(NoControls(Trimmed(rest))) }

  function RawValue(rest: string): string { NoControls(Trimmed(rest)) }

  function OrchestratorValue(rest: string): string { NoControls(NoQuotes(Trimmed(rest))) }

  function Values(lines: seq<string>, value: string -> string): map<string, string> {
    if lines == [] then map[]
    else
      var before, m := Values(lines[..|lines| - 1], value), AnyKey(lines[|lines| - 1]);
      if m.Some? then before[m.value.0 := value(m.value.1)] else before
  }

  /** The loop of env_values, in the router and in the collector. */
  method EnvValues(text: string, value: string -> string) returns (vals: map<string, string>)
    ensures vals == Values(Lines(text), value)
  {
    vals := map[];
    var lines := Lines(text);
    for i := 0 to |lines|
      invariant vals == Values(lines[..i], value)
    {
      assert lines[..i + 1][..i] == lines[..i];
      var m := AnyKey(lines[i]);
      if m.Some? {
        vals := vals[m.value.0 := value(m.value.1)];
      }
    }
    assert lines[..|lines|] == lines;
  }

  function NonEmpty(vals: map<string, string>): map<string, string> { map k | k in vals && vals[k] != [] :: vals[k] }

  function Lookup(vals: map<string, string>, key: string): Option<string> {
    if key in vals then Some(vals[key]) else None
  }

  /** read_env in the router, env_values in the collector: an empty value is no value. */
  method ReadEnv(text: string) returns (vals: map<string, string>)
    ensures vals == NonEmpty(Values(Lines(text), RouterValue))
  {
    var all := EnvValues(text, RouterValue);
    vals := map k | k in all && all[k] != [] :: all[k];
  }

  /** The plain values of config_from_text: read with quotes, then stripped of them. */
  method ConfigValues(text: string) returns (vals: map<string, string>)
    ensures vals == NonEmpty(map k | k in Values(Lines(text), RawValue) :: NoQuotes(Values(Lines(text), RawValue)[k]))
  {
    var raw := EnvValues(text, RawValue);
    var plain := map k | k in raw :: NoQuotes(raw[k]);
    vals := map k | k in plain && plain[k] != [] :: plain[k];
  }

  function Present(v: Option<string>): Option<string> { if v == Some([]) then None else v }

  /** _infra_value for one key: the last line wins, an empty value is no value. */
  method InfraValue(text: string, key: string) returns (val: Option<string>)
    ensures val == Present(Said(Lines(text), key, OrchestratorValue))
  {
    val := None;
    var lines := Lines(text);
    for i := 0 to |lines|
      invariant val == Present(Said(lines[..i], key, OrchestratorValue))
    {
      assert lines[..i + 1][..i] == lines[..i];
      var m := OneKey(lines[i], key);
      if m.None? {
        continue;
      }
      var v := OrchestratorValue(m.value);
      val := if v != [] then Some(v) else None;
    }
    assert lines[..|lines|] == lines;
  }

  /** A dictionary of all keys says of an identifier what the search for that one key says. */
  lemma {:induction false} ValuesIsSaid(lines: seq<string>, key: string, value: string -> string)
    requires Identifier(key)
    ensures Lookup(Values(lines, value), key) == Said(lines, key, value)
  {
    if lines != [] {
      var n := |lines| - 1;
      ValuesIsSaid(lines[..n], key, value);
      OneLineAgrees(lines[n], key);
    }
  }

  lemma OneLineAgrees(line: string, key: string)
    requires Identifier(key)
    ensures OneKey(line, key)
         == if AnyKey(line).Some? && AnyKey(line).value.0 == key then Some(AnyKey(line).value.1) else None
  {
    if OneKey(line, key).Some? {
      OneKeyIsThePattern(line, key, OneKey(line, key).value);
      AnyKeyIsThePattern(line, key, OneKey(line, key).value);
    }
    if AnyKey(line).Some? && AnyKey(line).value.0 == key {
      OneKeyIsThePattern(line, key, AnyKey(line).value.1);
      AnyKeyIsThePattern(line, key, AnyKey(line).value.1);
    }
  }

  lemma {:induction false} SaidMapped(lines: seq<string>, key: string)
    ensures Said(lines, key, RouterValue) == Said(lines, key, OrchestratorValue)
    ensures Said(lines, key, RouterValue) ==
              match Said(lines, key, RawValue) { case None => None case Some(v) => Some(NoQuotes(v)) }
  {
    if lines != [] {
      var n := |lines| - 1;
      var m := OneKey(lines[n], key);
      if m.Some? {
        DropsCommute(Trimmed(m.value));
      } else {
        SaidMapped(lines[..n], key);
      }
    }
  }

  /** A value that is only a comment is no value: the comment is cut before the blanks are. */
  lemma CommentOnlyIsNoValue(blanks: string, comment: string)
    requires blanks != [] && Blanks(blanks)
    ensures Trimmed(blanks + "#" + comment) == []
  {
    SkipsAll(blanks + "#" + comment, 0, |blanks|);
  }

  /** For every file text and every identifier the router (both its ways), the collector and the
      orchestrator read the same value or none. */
  lemma ReadersAgree(text: string, key: string)
    requires Identifier(key)
    ensures var router := Lookup(NonEmpty(Values(Lines(text), RouterValue)), key);
            var raw := Values(Lines(text), RawValue);
            var config := Lookup(NonEmpty(map k | k in raw :: NoQuotes(raw[k])), key);
            var orchestrator := Present(Said(Lines(text), key, OrchestratorValue));
            router == config == orchestrator
  {
    ValuesIsSaid(Lines(text), key, RouterValue);
    ValuesIsSaid(Lines(text), key, RawValue);
    SaidMapped(Lines(text), key);
  }

  // ---------------------------------------------------------------- what a value is

  /** From p on there are blanks, at least one, and then a `#`. */
  ghost predicate CommentAt(v: string, p: int) { exists q :: CommentFrom(v, p, q) }

  ghost predicate CommentFrom(v: string, p: int, q: int) {
    0 <= p < q < |v| && v[q] == '#' && forall k :: p <= k < q ==> Blank(v[k])
  }

  lemma CommentAfterIs(v: string, i: nat)
    requires i < |v| && Blank(v[i])
    ensures CommentAfter(v, i) <==> CommentAt(v, i)
  {
    var j := SkipBlanks(v, i);
    assert forall k :: i <= k < j ==> v[k] == v[i..j][k - i];
    if CommentAt(v, i) {
      var q :| CommentFrom(v, i, q);
      SkipsAll(v, i, q);
    } else if CommentAfter(v, i) {
      assert CommentFrom(v, i, j);
    }
  }

  /** The value ends where the first comment begins, with the blanks before it. */
  lemma {:induction false} CutIs(v: string, i: nat)
    requires i <= |v|
    ensures var r := CutComment(v, i);
            if exists p :: i <= p && CommentAt(v, p)
            then r == v[..|r|] && CommentAt(v, |r|) && forall p :: i <= p < |r| ==> !CommentAt(v, p)
            else r == v
    decreases |v| - i
  {
    if i < |v| {
      if Blank(v[i]) {
        CommentAfterIs(v, i);
      }
      CutIs(v, i + 1);
    }
  }

  predicate White(c: char) { Blank(c) || c == '\n' }

  lemma {:induction false} StripRightIs(v: string)
    ensures var r := StripRight(v);
            && r <= v && (forall k :: |r| <= k < |v| ==> White(v[k]))
            && (r != [] ==> !White(r[|r| - 1]))
  {
    if v != [] && White(v[|v| - 1]) {
      StripRightIs(v[..|v| - 1]);
    }
  }

  lemma {:induction false} StripLeftIs(v: string)
    ensures var r := StripLeft(v);
            && |r| <= |v| && r == v[|v| - |r|..] && (forall k :: 0 <= k < |v| - |r| ==> White(v[k]))
            && (r != [] ==> !White(r[0]))
  {
    if v != [] && White(v[0]) {
      StripLeftIs(v[1..]);
      assert forall k :: 1 <= k < |v| ==> v[k] == v[1..][k - 1];
    }
  }

  /** Without a character: none of it is left, and a text that has none is as it was. */
  lemma {:induction false} WithoutIs(v: string, c: char)
    ensures var r := Without(v, c);
            c !in r && (c !in v ==> r == v)
  {
    if v != [] {
      var n := |v| - 1;
      WithoutIs(v[..n], c);
      assert v == v[..n] + [v[n]];
    }
  }

  /** What is left of a text is what is left of its parts, in their order. */
  lemma {:induction false} WithoutConcat(a: string, b: string, c: char)
    ensures Without(a + b, c) == Without(a, c) + Without(b, c)
    decreases |b|
  {
    if b == [] {
      assert a + b == a;
    } else {
      var n := |b| - 1;
      assert (a + b)[..|a| + n] == a + b[..n];
      WithoutConcat(a, b[..n], c);
    }
  }

  /** Text without whites, quotes and NULs. */
  ghost predicate Plain(s: string) {
    s != [] && forall i :: 0 <= i < |s| ==> !White(s[i]) && s[i] != '"' && s[i] != '\'' && s[i] != '\0'
  }

  lemma PlainStays(s: string)
    requires Plain(s)
    ensures NoQuotes(s) == s && NoControls(s) == s
  {
    WithoutIs(s, '"');
    WithoutIs(s, '\'');
    WithoutIs(s, '\r');
    WithoutIs(s, '\0');
  }

  lemma TrimsTo(rest: string, before: string, body: string, after: string)
    requires CutComment(rest, 0) == before + body + after && Blanks(before) && Blanks(after) && Plain(body)
    ensures Trimmed(rest) == body
  {
    var v := before + body + after;
    var r := StripRight(v);
    StripRightIs(v);
    assert v[|before| + |body| - 1] == body[|body| - 1];
    assert forall k :: |before| + |body| <= k < |v| ==> v[k] == after[k - |before| - |body|];
    assert |r| == |before| + |body|;
    assert r == before + body;
    StripLeftIs(r);
    assert r[|before|] == body[0];
    assert forall k :: 0 <= k < |before| ==> r[k] == before[k];
    assert |StripLeft(r)| == |body|;
  }

  lemma InBody(v: string, before: string, body: string, p: int)
    requires before + body <= v && |before| <= p < |before| + |body| && Plain(body)
    ensures !Blank(v[p])
  {
    assert v[p] == (before + body)[p] == body[p - |before|];
  }

  /** No comment begins in a plain text between blanks. */
  lemma NoCommentIn(v: string, before: string, body: string, after: string, p: int)
    requires before + body + after <= v && Blanks(before) && Blanks(after)
    requires Plain(body) && (before != [] ==> body[0] != '#') && CommentAt(v, p)
    ensures |before| + |body| <= p
  {
    var q :| CommentFrom(v, p, q);
    assert forall k :: 0 <= k < |body| ==> v[|before| + k] == body[k];
    assert v[|before|] == body[0];
    assert forall k :: 0 <= k < |before| ==> v[k] == before[k];
    if |before| <= p < |before| + |body| {
      assert before + body <= v;
      InBody(v, before, body, p);
    }
  }

  ghost predicate ReadAs(rest: string, body: string) {
    RouterValue(rest) == body && OrchestratorValue(rest) == body && NoQuotes(RawValue(rest)) == body
  }

  /** All three readers: a plain text is the value as it stands, whatever blanks are around it. */
  lemma ReadsPlain(before: string, body: string, after: string)
    requires Blanks(before) && Blanks(after) && Plain(body) && (before != [] ==> body[0] != '#')
    ensures ReadAs(before + body + after, body)
  {
    var v := before + body + after;
    CutIs(v, 0);
    assert forall k :: 0 <= k < |after| ==> v[|before| + |body| + k] == after[k];
    forall p | 0 <= p
      ensures !CommentAt(v, p)
    {
      if CommentAt(v, p) {
        NoCommentIn(v, before, body, after, p);
      }
    }
    TrimsTo(v, before, body, after);
    PlainStays(body);
  }

  /** And a comment behind a blank is no part of it, while a `#` within it is. */
  lemma ReadsBeforeComment(before: string, body: string, after: string, comment: string)
    requires Blanks(before) && Blanks(after) && after != [] && Plain(body) && (before != [] ==> body[0] != '#')
    ensures ReadAs(before + body + after + "#" + comment, body)
  {
    var v := before + body + after + "#" + comment;
    var p := |before| + |body|;
    assert forall k :: p <= k < p + |after| ==> v[k] == after[k - p];
    assert CommentFrom(v, p, p + |after|) && CommentAt(v, p);
    assert v[..p] == before + body + "";
    CutIs(v, 0);
    var r := CutComment(v, 0);
    if |r| < p {
      NoCommentIn(v, before, body, after, |r|);
    }
    assert r == before + body + "";
    TrimsTo(v, before, body, "");
    PlainStays(body);
  }

  // ---------------------------------------------------------------- what a file says

  function Join(lines: seq<string>): string
    requires lines != []
  {
    if |lines| == 1 then lines[0] else Join(lines[..|lines| - 1]) + "\n" + lines[|lines| - 1]
  }

  lemma JoinLonger(lines: seq<string>, c: char)
    requires lines != []
    ensures var n := |lines| - 1; Join(lines[..n] + [lines[n] + [c]]) == Join(lines) + [c]
  {
    var n := |lines| - 1;
    var longer := lines[..n] + [lines[n] + [c]];
    assert longer[..n] == lines[..n];
    if n > 0 {
      var pre := Join(lines[..n]) + "\n";
      assert pre + (lines[n] + [c]) == (pre + lines[n]) + [c];
    }
  }

  /** The lines of a text have no line feed in them, and joined by line feeds they are the text. */
  lemma {:induction false} LinesAre(text: string)
    ensures Join(Lines(text)) == text && forall i :: 0 <= i < |Lines(text)| ==> '\n' !in Lines(text)[i]
  {
    if text != [] {
      var n := |text| - 1;
      var before := Lines(text[..n]);
      LinesAre(text[..n]);
      assert text == text[..n] + [text[n]];
      if text[n] == '\n' {
        assert (before + [[]])[..|before|] == before;
      } else {
        JoinLonger(before, text[n]);
      }
    }
  }

  ghost predicate SaysLast(lines: seq<string>, key: string, i: nat) {
    i < |lines| && OneKey(lines[i], key).Some? && forall j :: i < j < |lines| ==> OneKey(lines[j], key).None?
  }

  lemma SaysLaterToo(lines: seq<string>, key: string, i: nat)
    requires lines != [] && SaysLast(lines[..|lines| - 1], key, i) && OneKey(lines[|lines| - 1], key).None?
    ensures SaysLast(lines, key, i) && lines[i] == lines[..|lines| - 1][i]
  {
    var n := |lines| - 1;
    forall j | i < j < |lines|
      ensures OneKey(lines[j], key).None?
    {
      if j < n {
        assert lines[..n][j] == lines[j];
      }
    }
  }

  /** The last line with the key says what its value is. */
  lemma {:induction false} LastLineSays(lines: seq<string>, key: string, value: string -> string) returns (i: nat)
    requires Said(lines, key, value).Some?
    ensures SaysLast(lines, key, i) && Said(lines, key, value) == Some(value(OneKey(lines[i], key).value))
  {
    var n := |lines| - 1;
    if OneKey(lines[n], key).Some? {
      i := n;
    } else {
      i := LastLineSays(lines[..n], key, value);
      SaysLaterToo(lines, key, i);
    }
  }

  /** And a key that some line has is said. */
  lemma {:induction false} AnyLineSays(lines: seq<string>, key: string, value: string -> string, i: nat)
    requires i < |lines| && OneKey(lines[i], key).Some?
    ensures Said(lines, key, value).Some?
  {
    var n := |lines| - 1;
    if OneKey(lines[n], key).None? {
      assert lines[..n][i] == lines[i];
      AnyLineSays(lines[..n], key, value, i);
    }
  }

  /** So all three say of a key what its last line says. */
  lemma ReadersSay(text: string, key: string, i: nat, body: string)
    requires Identifier(key) && SaysLast(Lines(text), key, i) && body != []
    requires ReadAs(OneKey(Lines(text)[i], key).value, body)
    ensures var raw := Values(Lines(text), RawValue);
            && Lookup(NonEmpty(Values(Lines(text), RouterValue)), key) == Some(body)
            && Lookup(NonEmpty(map k | k in raw :: NoQuotes(raw[k])), key) == Some(body)
            && Present(Said(Lines(text), key, OrchestratorValue)) == Some(body)
  {
    var lines := Lines(text);
    AnyLineSays(lines, key, OrchestratorValue, i);
    var j := LastLineSays(lines, key, OrchestratorValue);
    assert i == j;
    ReadersAgree(text, key);
  }

  /** A key is made of letters, digits and underscores, and starts with no digit; the blanks and the line feed are the
      six of ASCII. */
  lemma KeyCharsAre(c: char)
    ensures Blank(c) || c == '\n' <==> 9 <= c as int <= 13 || c as int == 32
    ensures KeyStart(c) <==> c in CAPITALS || c in SMALL || c == '_'
    ensures KeyChar(c) <==> c in CAPITALS || c in SMALL || c == '_' || c in DIGITS
  {
    assert forall i :: 0 <= i < 26 ==> CAPITALS[i] as int == 'A' as int + i;
    assert forall i :: 0 <= i < 26 ==> SMALL[i] as int == 'a' as int + i;
    assert forall i :: 0 <= i < 10 ==> DIGITS[i] as int == '0' as int + i;
    if 'A' <= c <= 'Z' {
      assert CAPITALS[c as int - 'A' as int] == c;
    }
    if 'a' <= c <= 'z' {
      assert SMALL[c as int - 'a' as int] == c;
    }
    if '0' <= c <= '9' {
      assert DIGITS[c as int - '0' as int] == c;
    }
  }
}
