/** The line lexer of the configuration parser (parse.go, parseLine and
    parseFile). Every input line becomes either no token at all (a blank or
    comment line) or exactly two tokens: the key, and the value with any
    trailing comment stripped. Characters stand for the runes the Go code
    decodes; lines are given already split. */
module Lexer {

  /** A token and the 1-based number of the line it was read from. */
  datatype Token = Token(line: nat, val: string)

  /** Membership in the Go constant `spaces` (" \t"): only spaces and tabs
      count as horizontal whitespace. */
  predicate IsSpace(c: char) {
    c == ' ' || c == '\t'
  }

  predicate AllSpace(s: string) {
    forall i :: 0 <= i < |s| ==> IsSpace(s[i])
  }

  predicate NoSpace(s: string) {
    forall i :: 0 <= i < |s| ==> !IsSpace(s[i])
  }

  /** Neither the first nor the last character is a space or tab. */
  predicate IsTrimmed(s: string) {
    s == [] || (!IsSpace(s[0]) && !IsSpace(s[|s| - 1]))
  }

  /** A line the lexer skips: empty, only spaces and tabs, or its first
      character that is not a space or tab is `#`. */
  predicate IsBlankOrComment(line: string) {
    line == [] || line[0] == '#' || (IsSpace(line[0]) && IsBlankOrComment(line[1..]))
  }

  // ---------------------------------------------------------------------
  // The string library calls parseLine relies on

  /** strings.TrimLeft(s, spaces) */
  function TrimLeft(s: string): (r: string)
    ensures |r| <= |s|
    ensures r == [] || !IsSpace(r[0])
  {
    if s != [] && IsSpace(s[0]) then TrimLeft(s[1..]) else s
  }

  /** The right-hand half of strings.Trim(s, spaces) */
  function TrimRight(s: string): (r: string)
    ensures |r| <= |s|
    ensures r == [] || !IsSpace(r[|r| - 1])
  {
    if s != [] && IsSpace(s[|s| - 1]) then TrimRight(s[..|s| - 1]) else s
  }

  /** strings.Trim(s, spaces) */
  function Trim(s: string): (r: string)
    ensures |r| <= |s|
    ensures IsTrimmed(r)
  {
    TrimRightSpec(TrimLeft(s));
    TrimRight(TrimLeft(s))
  }

  /** TrimLeft removes exactly the leading spaces and tabs. */
  lemma {:induction false} TrimLeftSpec(s: string)
    ensures TrimLeft(s) == s[|s| - |TrimLeft(s)|..]
    ensures forall j :: 0 <= j < |s| - |TrimLeft(s)| ==> IsSpace(s[j])
  {
    if s != [] && IsSpace(s[0]) {
      TrimLeftSpec(s[1..]);
    }
  }

  /** TrimRight removes exactly the trailing spaces and tabs. */
  lemma {:induction false} TrimRightSpec(s: string)
    ensures TrimRight(s) == s[..|TrimRight(s)|]
    ensures forall j :: |TrimRight(s)| <= j < |s| ==> IsSpace(s[j])
  {
    if s != [] && IsSpace(s[|s| - 1]) {
      TrimRightSpec(s[..|s| - 1]);
    }
  }

  /** Trim leaves nothing exactly when there is nothing but spaces and tabs. */
  lemma TrimEmpty(s: string)
    ensures Trim(s) == [] <==> AllSpace(s)
  {
    var l := TrimLeft(s);
    var p := |s| - |l|;
    TrimLeftSpec(s);
    TrimRightSpec(l);
    if l != [] {
      assert l[0] == s[p];
      assert !IsSpace(s[p]);
      assert TrimRight(l) != [];
    }
  }

  // ---------------------------------------------------------------------
  // What parseLine computes

  /** The index where the forward scan for a space or tab stops (parse.go:45-51). */
  function KeyEnd(s: string): (i: nat)
    ensures i <= |s|
    ensures i < |s| ==> IsSpace(s[i])
  {
    if s == [] || IsSpace(s[0]) then 0 else 1 + KeyEnd(s[1..])
  }

  /** The index where the forward scan for `#` stops (parse.go:59-65). */
  function CommentStart(s: string): (i: nat)
    ensures i <= |s|
    ensures i < |s| ==> s[i] == '#'
  {
    if s == [] || s[0] == '#' then 0 else 1 + CommentStart(s[1..])
  }

  /** No space or tab precedes KeyEnd(s). */
  lemma {:induction false} KeyEndSpec(s: string)
    ensures forall j :: 0 <= j < KeyEnd(s) ==> !IsSpace(s[j])
  {
    if s != [] && !IsSpace(s[0]) {
      KeyEndSpec(s[1..]);
    }
  }

  /** No `#` precedes CommentStart(s). */
  lemma {:induction false} CommentStartSpec(s: string)
    ensures forall j :: 0 <= j < CommentStart(s) ==> s[j] != '#'
  {
    if s != [] && s[0] != '#' {
      CommentStartSpec(s[1..]);
    }
  }

  /** The key of a left-trimmed line: everything before the first space or
      tab (parse.go:45-53). */
  function Key(l: string): string
  {
    l[..KeyEnd(l)]
  }

  /** Text before the first `#`, trimmed (parse.go:59-71). */
  function Uncomment(s: string): string
  {
    Trim(s[..CommentStart(s)])
  }

  /** The value of a left-trimmed line: what follows the key, trimmed, then
      cut at the first `#` and trimmed again (parse.go:58-71). */
  function Value(l: string): string
  {
    Uncomment(Trim(l[KeyEnd(l)..]))
  }

  /** The tokens parseLine sends for one line, numbered `n`. */
  function LineTokens(n: nat, line: string): seq<Token>
  {
    var l := TrimLeft(line);
    if |l| < 1 || l[0] == '#' then []
    else [Token(n, Key(l)), Token(n, Value(l))]
  }

  /** parseLine (parse.go:37-72): the tokens of one line, in the order they
      are sent. */
  method ParseLine(nline: nat, line: string) returns (tokens: seq<Token>)
    ensures tokens == LineTokens(nline, line)
  {
    var l := TrimLeft(line);
    if |l| < 1 || l[0] == '#' {
      return [];
    }

    var end := ScanKey(l);
    // The key scan always advances past l[0], which is neither a space nor
    // `#`, so the early return on an empty key (parse.go:55) never happens.
    assert end > 0;
    var key := l[..end];

    l := Trim(l[end..]);
    end := ScanComment(l);
    var value := "";
    if end > 0 {
      value := Trim(l[..end]);
    }
    // The key token is sent before the value is scanned; the consumer sees
    // only the order of the two, key first.
    tokens := [Token(nline, key), Token(nline, value)];
  }

  /** The loop of parse.go:45-51: advance until a space or tab. */
  method ScanKey(l: string) returns (end: nat)
    ensures end == KeyEnd(l)
  {
    end := 0;
    while end < |l|
      invariant 0 <= end <= |l|
      invariant forall j :: 0 <= j < end ==> !IsSpace(l[j])
    {
      if IsSpace(l[end]) {
        break;
      }
      end := end + 1;
    }
    KeyEndUnique(l, end);
  }

  /** The loop of parse.go:59-65: advance until `#`. */
  method ScanComment(l: string) returns (end: nat)
    ensures end == CommentStart(l)
  {
    end := 0;
    while end < |l|
      invariant 0 <= end <= |l|
      invariant forall j :: 0 <= j < end ==> l[j] != '#'
    {
      if l[end] == '#' {
        break;
      }
      end := end + 1;
    }
    CommentStartUnique(l, end);
  }

  lemma KeyEndUnique(s: string, i: nat)
    requires i <= |s| && forall j :: 0 <= j < i ==> !IsSpace(s[j])
    requires i < |s| ==> IsSpace(s[i])
    ensures i == KeyEnd(s)
  {
    KeyEndSpec(s);
  }

  lemma CommentStartUnique(s: string, i: nat)
    requires i <= |s| && forall j :: 0 <= j < i ==> s[j] != '#'
    requires i < |s| ==> s[i] == '#'
    ensures i == CommentStart(s)
  {
    CommentStartSpec(s);
  }

  // ---------------------------------------------------------------------
  // parseFile

  /** The token stream of a whole input: line k (1-based) contributes
      LineTokens(k, lines[k - 1]), lines in order. */
  function FileTokens(lines: seq<string>): seq<Token>
  {
    if lines == [] then []
    else FileTokens(lines[..|lines| - 1]) + LineTokens(|lines|, lines[|lines| - 1])
  }

  /** parseFile (parse.go:75-85): number the lines from 1 and lex them in
      order onto one stream. */
  method ParseFile(lines: seq<string>) returns (tokens: seq<Token>)
    ensures tokens == FileTokens(lines)
  {
    tokens := [];
    var nline := 0;
    while nline < |lines|
      invariant 0 <= nline <= |lines|
      invariant tokens == FileTokens(lines[..nline])
    {
      nline := nline + 1;
      assert lines[..nline][..nline - 1] == lines[..nline - 1];
      var t := ParseLine(nline, lines[nline - 1]);
      tokens := tokens + t;
    }
    assert lines[..|lines|] == lines;
  }

  /** The texts of a token stream, in order. */
  function Vals(tokens: seq<Token>): (r: seq<string>)
    ensures |r| == |tokens|
  {
    seq(|tokens|, i requires 0 <= i < |tokens| => tokens[i].val)
  }

  // ---------------------------------------------------------------------
  // Trimming and scanning facts

  lemma {:induction false} TrimLeftSkip(a: string, b: string)
    requires AllSpace(a)
    ensures TrimLeft(a + b) == TrimLeft(b)
  {
    if a != [] {
      assert (a + b)[0] == a[0] && (a + b)[1..] == a[1..] + b;
      TrimLeftSkip(a[1..], b);
    } else {
      assert a + b == b;
    }
  }

  lemma TrimLeftOf(a: string, b: string)
    requires AllSpace(a)
    requires b == [] || !IsSpace(b[0])
    ensures TrimLeft(a + b) == b
  {
    TrimLeftSkip(a, b);
  }

  lemma {:induction false} TrimRightOf(a: string, b: string)
    requires AllSpace(b)
    requires a == [] || !IsSpace(a[|a| - 1])
    ensures TrimRight(a + b) == a
  {
    if b != [] {
      assert (a + b)[|a + b| - 1] == b[|b| - 1];
      assert (a + b)[..|a + b| - 1] == a + b[..|b| - 1];
      TrimRightOf(a, b[..|b| - 1]);
    } else {
      assert a + b == a;
    }
  }

  /** Trimming removes exactly the surrounding spaces and tabs. */
  lemma TrimOf(a: string, b: string, c: string)
    requires AllSpace(a) && IsTrimmed(b) && AllSpace(c)
    ensures Trim(a + b + c) == b
  {
    if b == [] {
      assert a + b + c == a + c;
      assert AllSpace(a + c);
      TrimEmpty(a + c);
    } else {
      assert a + b + c == a + (b + c);
      TrimLeftOf(a, b + c);
      TrimRightOf(b, c);
    }
  }

  /** Leading spaces and tabs do not change the result of Trim. */
  lemma TrimSkip(a: string, b: string)
    requires AllSpace(a)
    ensures Trim(a + b) == Trim(b)
  {
    TrimLeftSkip(a, b);
  }

  /** Where Trim(s) sits inside s. */
  lemma TrimSplit(s: string) returns (p: nat)
    ensures p + |Trim(s)| <= |s| && s[p..p + |Trim(s)|] == Trim(s)
    ensures forall i :: 0 <= i < p ==> IsSpace(s[i])
    ensures forall i :: p + |Trim(s)| <= i < |s| ==> IsSpace(s[i])
  {
    var l := TrimLeft(s);
    var r := TrimRight(l);
    p := |s| - |l|;
    TrimLeftSpec(s);
    TrimRightSpec(l);
    forall i | p + |r| <= i < |s| ensures IsSpace(s[i]) {
      assert s[i] == l[i - p];
    }
  }

  lemma KeyEndOf(key: string, rest: string)
    requires NoSpace(key)
    requires rest == [] || IsSpace(rest[0])
    ensures KeyEnd(key + rest) == |key|
  {
    KeyEndUnique(key + rest, |key|);
  }

  lemma CommentStartOf(a: string, b: string)
    requires '#' !in a
    requires b == [] || b[0] == '#'
    ensures CommentStart(a + b) == |a|
  {
    CommentStartUnique(a + b, |a|);
  }

  // ---------------------------------------------------------------------
  // Properties of the tokens of one line

  /** The two ways of saying that a line is skipped agree. */
  lemma {:induction false} BlankOrCommentTrim(line: string)
    ensures IsBlankOrComment(line) <==> (TrimLeft(line) == [] || TrimLeft(line)[0] == '#')
  {
    if line != [] && IsSpace(line[0]) {
      BlankOrCommentTrim(line[1..]);
    }
  }

  /** A line yields no tokens exactly when it is blank or a comment, and
      otherwise exactly two, both tagged with the line's number
      (parse.go:40-43, 53, 67-71). */
  lemma {:induction false} LineTokensShape(n: nat, line: string)
    ensures var r := LineTokens(n, line);
      (r == [] <==> IsBlankOrComment(line)) &&
      (r != [] ==> |r| == 2 && r[0].line == n && r[1].line == n)
  {
    BlankOrCommentTrim(line);
  }

  /** The key of a line that is neither blank nor a comment is non-empty,
      free of spaces and tabs, starts with the line's first character, and
      is the longest such prefix. It may contain `#` after its first
      character (parse.go:45-53). */
  lemma KeySpec(l: string)
    requires l != [] && !IsSpace(l[0])
    ensures Key(l) != [] && Key(l)[0] == l[0] && NoSpace(Key(l))
    ensures Key(l) <= l && (|Key(l)| == |l| || IsSpace(l[|Key(l)|]))
  {
    KeyEndSpec(l);
  }

  /** Uncomment gives text that holds no `#`, neither starts nor ends with a
      space or tab, and is empty exactly when only spaces and tabs stand
      before the first `#` or the end (parse.go:59-71). */
  lemma UncommentSpec(s: string)
    ensures '#' !in Uncomment(s) && IsTrimmed(Uncomment(s))
    ensures Uncomment(s) == [] <==> AllSpace(s[..CommentStart(s)])
  {
    var c := s[..CommentStart(s)];
    CommentStartSpec(s);
    var p := TrimSplit(c);
    assert forall i :: 0 <= i < |Uncomment(s)| ==> Uncomment(s)[i] == c[p + i];
    TrimEmpty(c);
  }

  /** Blanks around a trimmed text change nothing of its value. */
  lemma UncommentAround(a: string, core: string, c: string)
    requires AllSpace(a) && IsTrimmed(core) && AllSpace(c)
    ensures Uncomment(a + core + c) == Uncomment(core)
  {
    var s := a + core + c;
    var h := CommentStart(core);
    CommentStartSpec(core);
    if h < |core| {
      assert core == core[..h] + core[h..];
      assert s == (a + core[..h]) + (core[h..] + c);
      CommentStartOf(a + core[..h], core[h..] + c);
      assert s[..CommentStart(s)] == a + core[..h];
      TrimSkip(a, core[..h]);
    } else {
      UncommentUncut(a, core, c);
    }
  }

  lemma UncommentUncut(a: string, core: string, c: string)
    requires AllSpace(a) && IsTrimmed(core) && AllSpace(c)
    requires '#' !in core
    ensures Uncomment(a + core + c) == Uncomment(core)
  {
    var s := a + core + c;
    assert '#' !in s by {
      forall i | 0 <= i < |s| ensures s[i] != '#' {
        if i < |a| {
          assert s[i] == a[i];
        } else if i < |a| + |core| {
          assert s[i] == core[i - |a|];
        } else {
          assert s[i] == c[i - |a| - |core|];
        }
      }
    }
    CommentStartOf(s, []);
    CommentStartOf(core, []);
    assert s + [] == s && core + [] == core;
    assert s[..|s|] == s && core[..|core|] == core;
    TrimOf(a, core, c);
    TrimOf([], core, []);
    assert [] + core + [] == core;
  }

  /** Trimming before cutting at `#` does not change the value: parseLine's
      first Trim (parse.go:58) is redundant. */
  lemma UncommentTrim(s: string)
    ensures Uncomment(Trim(s)) == Uncomment(s)
  {
    var core := Trim(s);
    var p := TrimSplit(s);
    var a, c := s[..p], s[p + |core|..];
    assert s == a + core + c;
    UncommentAround(a, core, c);
  }


  /** The key token of a line that is not skipped, as KeySpec describes
      it, and the value token, which is the text after the key up to the
      first `#` with surrounding spaces and tabs removed (parse.go:40-71). */
  lemma LineTokensText(n: nat, line: string)
    requires LineTokens(n, line) != []
    ensures LineTokens(n, line)[0].val == Key(TrimLeft(line))
    ensures TrimLeft(line) != [] && TrimLeft(line)[0] != '#'
    ensures LineTokens(n, line)[1].val == Uncomment(TrimLeft(line)[KeyEnd(TrimLeft(line))..])
  {
    UncommentTrim(TrimLeft(line)[KeyEnd(TrimLeft(line))..]);
  }

  // ---------------------------------------------------------------------
  // Properties of the token stream of a whole input

  /** Every token carries the number of an input line, and numbers never
      decrease along the stream (parse.go:76-84). */
  lemma {:induction false} FileTokensLines(lines: seq<string>)
    ensures forall i :: 0 <= i < |FileTokens(lines)| ==> 1 <= FileTokens(lines)[i].line <= |lines|
    ensures forall i, j :: 0 <= i <= j < |FileTokens(lines)| ==> FileTokens(lines)[i].line <= FileTokens(lines)[j].line
  {
    if lines != [] {
      var n := |lines|;
      var init := lines[..n - 1];
      FileTokensLines(init);
      LineTokensShape(n, lines[n - 1]);
      var t, t0, r := FileTokens(lines), FileTokens(init), LineTokens(n, lines[n - 1]);
      assert t == t0 + r;
      assert forall i :: 0 <= i < |r| ==> r[i].line == n;
      forall i, j | 0 <= i <= j < |t| ensures t[i].line <= t[j].line {
        if j < |t0| {
          assert t[i] == t0[i] && t[j] == t0[j];
        } else if i < |t0| {
          assert t[i] == t0[i] && t[j] == r[j - |t0|];
        } else {
          assert t[i] == r[i - |t0|] && t[j] == r[j - |t0|];
        }
      }
      forall i | 0 <= i < |t| ensures 1 <= t[i].line <= n {
        if i < |t0| {
          assert t[i] == t0[i];
        } else {
          assert t[i] == r[i - |t0|];
        }
      }
    }
  }

  /** The number of lines that are neither blank nor comments. */
  function ContentLines(lines: seq<string>): nat
  {
    if lines == [] then 0
    else ContentLines(lines[..|lines| - 1]) + if IsBlankOrComment(lines[|lines| - 1]) then 0 else 1
  }

  /** The stream is a sequence of (key, value) pairs, one pair per line that
      is neither blank nor a comment: pair k (tokens 2k and 2k+1) is exactly
      the key and the value of the line whose number both tokens carry
      (parse.go:37-84). */
  lemma FileTokensPaired(lines: seq<string>)
    ensures |FileTokens(lines)| == 2 * ContentLines(lines)
    ensures forall k :: 0 <= k < ContentLines(lines) ==>
      1 <= FileTokens(lines)[2 * k].line <= |lines| &&
      FileTokens(lines)[2 * k + 1].line == FileTokens(lines)[2 * k].line &&
      LineTokens(FileTokens(lines)[2 * k].line, lines[FileTokens(lines)[2 * k].line - 1])
        == [FileTokens(lines)[2 * k], FileTokens(lines)[2 * k + 1]]
  {
    FileTokensCount(lines);
    forall k | 0 <= k < ContentLines(lines)
      ensures 1 <= FileTokens(lines)[2 * k].line <= |lines|
      ensures FileTokens(lines)[2 * k + 1].line == FileTokens(lines)[2 * k].line
      ensures LineTokens(FileTokens(lines)[2 * k].line, lines[FileTokens(lines)[2 * k].line - 1])
        == [FileTokens(lines)[2 * k], FileTokens(lines)[2 * k + 1]]
    {
      PairAt(lines, k);
    }
  }

  lemma {:induction false} FileTokensCount(lines: seq<string>)
    ensures |FileTokens(lines)| == 2 * ContentLines(lines)
  {
    if lines != [] {
      FileTokensCount(lines[..|lines| - 1]);
      LineTokensShape(|lines|, lines[|lines| - 1]);
    }
  }

  /** Pair k of the stream is the token list of one line, and that line's
      number is carried by both tokens. */
  lemma {:induction false} PairAt(lines: seq<string>, k: nat)
    requires k < ContentLines(lines)
    ensures |FileTokens(lines)| == 2 * ContentLines(lines)
    ensures 1 <= FileTokens(lines)[2 * k].line <= |lines|
    ensures FileTokens(lines)[2 * k + 1].line == FileTokens(lines)[2 * k].line
    ensures LineTokens(FileTokens(lines)[2 * k].line, lines[FileTokens(lines)[2 * k].line - 1])
      == [FileTokens(lines)[2 * k], FileTokens(lines)[2 * k + 1]]
  {
    var n := |lines|;
    var init := lines[..n - 1];
    var t, t0, r := FileTokens(lines), FileTokens(init), LineTokens(n, lines[n - 1]);
    assert t == t0 + r;
    FileTokensCount(lines);
    FileTokensCount(init);
    LineTokensShape(n, lines[n - 1]);
    if k < ContentLines(init) {
      PairAt(init, k);
      assert t[2 * k] == t0[2 * k] && t[2 * k + 1] == t0[2 * k + 1];
      assert lines[t[2 * k].line - 1] == init[t[2 * k].line - 1];
    } else {
      assert 2 * k == |t0|;
      assert t[2 * k] == r[0] && t[2 * k + 1] == r[1];
    }
  }

  /** An input yields no token at all exactly when all its lines are blank or
      comments. */
  lemma {:induction false} NoTokens(lines: seq<string>)
    ensures FileTokens(lines) == [] <==> forall i :: 0 <= i < |lines| ==> IsBlankOrComment(lines[i])
  {
    if lines != [] {
      var init := lines[..|lines| - 1];
      NoTokens(init);
      LineTokensShape(|lines|, lines[|lines| - 1]);
      if forall i :: 0 <= i < |lines| ==> IsBlankOrComment(lines[i]) {
        assert forall i :: 0 <= i < |init| ==> IsBlankOrComment(init[i]) by {
          forall i | 0 <= i < |init| ensures IsBlankOrComment(init[i]) {
            assert init[i] == lines[i];
          }
        }
      } else {
        var k :| 0 <= k < |lines| && !IsBlankOrComment(lines[k]);
        if k < |lines| - 1 {
          assert init[k] == lines[k];
        }
      }
    }
  }

  /** The first two tokens of the stream are those of the first line that is
      neither blank nor a comment, numbered by that line. */
  lemma {:induction false} FirstTokens(lines: seq<string>, k: nat)
    requires 1 <= k <= |lines|
    requires forall i :: 0 <= i < k - 1 ==> IsBlankOrComment(lines[i])
    requires !IsBlankOrComment(lines[k - 1])
    ensures |FileTokens(lines)| >= 2 && FileTokens(lines)[..2] == LineTokens(k, lines[k - 1])
  {
    var n := |lines|;
    var init := lines[..n - 1];
    if k < n {
      assert forall i :: 0 <= i < k ==> init[i] == lines[i];
      FirstTokens(init, k);
      KeepFirstTwo(lines);
    } else {
      LineTokensShape(k, lines[k - 1]);
      LastTokens(lines);
    }
  }

  /** When every line but the last is skipped, the stream is the last line's tokens. */
  lemma LastTokens(lines: seq<string>)
    requires lines != []
    requires forall i :: 0 <= i < |lines| - 1 ==> IsBlankOrComment(lines[i])
    ensures FileTokens(lines) == LineTokens(|lines|, lines[|lines| - 1])
  {
    var init := lines[..|lines| - 1];
    NoTokens(init);
    assert forall i :: 0 <= i < |init| ==> IsBlankOrComment(init[i]) by {
      forall i | 0 <= i < |init| ensures IsBlankOrComment(init[i]) {
        assert init[i] == lines[i];
      }
    }
  }

  /** A further line leaves the first two tokens where they were. */
  lemma KeepFirstTwo(lines: seq<string>)
    requires lines != [] && |FileTokens(lines[..|lines| - 1])| >= 2
    ensures |FileTokens(lines)| >= 2
    ensures FileTokens(lines)[..2] == FileTokens(lines[..|lines| - 1])[..2]
  {
    var head := FileTokens(lines[..|lines| - 1]);
    var last := LineTokens(|lines|, lines[|lines| - 1]);
    assert FileTokens(lines) == head + last;
    assert (head + last)[..2] == head[..2];
  }


  lemma ValsAppend(a: seq<Token>, b: seq<Token>)
    ensures Vals(a + b) == Vals(a) + Vals(b)
  {
    assert forall i :: 0 <= i < |a + b| ==> Vals(a + b)[i] == (Vals(a) + Vals(b))[i];
  }

  /** Token texts do not depend on where the lines stand in the input:
      lexing two inputs one after the other gives the texts of each in
      turn. */
  lemma {:induction false} FileValsAppend(a: seq<string>, b: seq<string>)
    ensures Vals(FileTokens(a + b)) == Vals(FileTokens(a)) + Vals(FileTokens(b))
  {
    if b == [] {
      assert a + b == a;
    } else {
      var init := b[..|b| - 1];
      var last := b[|b| - 1];
      SnocSplit(a, b);
      FileValsSnoc(a + b);
      FileValsSnoc(b);
      FileValsAppend(a, init);
      Assoc(Vals(FileTokens(a)), Vals(FileTokens(init)), Vals(LineTokens(0, last)));
    }
  }

  /** The texts of an input are those of its first line, then those of
      the rest. */
  lemma FileValsCons(line: string, rest: seq<string>)
    ensures Vals(FileTokens([line] + rest)) == Vals(LineTokens(0, line)) + Vals(FileTokens(rest))
  {
    FileValsAppend([line], rest);
    FileValsOne(line);
  }

  lemma FileValsOne(line: string)
    ensures Vals(FileTokens([line])) == Vals(LineTokens(0, line))
  {
    assert [line][..0] == [];
    LineVals(1, 0, line);
    assert FileTokens([line]) == [] + LineTokens(1, line);
  }

  /** Sequence facts stated on their own to keep the proof of
      FileValsAppend small for the solver. */
  lemma SnocSplit(a: seq<string>, b: seq<string>)
    requires b != []
    ensures (a + b)[..|a + b| - 1] == a + b[..|b| - 1]
    ensures (a + b)[|a + b| - 1] == b[|b| - 1]
  {
  }

  /** Associativity of `+`, stated on its own for the same reason. */
  lemma Assoc(x: seq<string>, y: seq<string>, z: seq<string>)
    ensures (x + y) + z == x + (y + z)
  {
  }

  /** The texts of an input are those of all lines but the last, then
      those of the last line. */
  lemma FileValsSnoc(lines: seq<string>)
    requires lines != []
    ensures Vals(FileTokens(lines)) == Vals(FileTokens(lines[..|lines| - 1])) + Vals(LineTokens(0, lines[|lines| - 1]))
  {
    var n := |lines|;
    LineVals(n, 0, lines[n - 1]);
    ValsAppend(FileTokens(lines[..n - 1]), LineTokens(n, lines[n - 1]));
  }

  /** The texts of a line's tokens do not depend on its number. */
  lemma LineVals(m: nat, n: nat, line: string)
    ensures Vals(LineTokens(m, line)) == Vals(LineTokens(n, line))
  {
    LineTokensShape(m, line);
    LineTokensShape(n, line);
  }
}
