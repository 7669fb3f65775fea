/** The section builder of the configuration parser (parse.go, Section,
    NewSection, loadMap and Parse). The token stream the lexer produces is
    read through one cursor: it must open with a `Host` token; every token
    read right after a `Host` names a new section, and the tokens up to the
    next `Host` are paired into that section's options. */
module Sections {
  import opened Lexer

  /** Parse either yields its result or fails with the number of the line
      whose token was not `Host` (0 when there was no token at all). */
  datatype Result<T> = Ok(value: T) | Err(line: nat)

  /** The value of a section: its name and its options. */
  datatype SectionData = SectionData(name: string, values: map<string, string>)

  // ---------------------------------------------------------------------
  // What loadMap and Parse compute, over the texts of the token stream

  /** Index of the first `Host` at or after `from`, or |vals| if none. */
  function HostIndex(vals: seq<string>, from: nat): (i: nat)
    requires from <= |vals|
    ensures from <= i <= |vals|
    ensures forall j :: from <= j < i ==> vals[j] != "Host"
    ensures i < |vals| ==> vals[i] == "Host"
    decreases |vals| - from
  {
    if from == |vals| || vals[from] == "Host" then from else HostIndex(vals, from + 1)
  }

  /** The only index the three properties of HostIndex allow. */
  lemma HostIndexUnique(vals: seq<string>, from: nat, i: nat)
    requires from <= i <= |vals|
    requires forall j :: from <= j < i ==> vals[j] != "Host"
    requires i < |vals| ==> vals[i] == "Host"
    ensures HostIndex(vals, from) == i
    decreases i - from
  {
    if from < i {
      HostIndexUnique(vals, from + 1, i);
    }
  }

  /** loadMap's fold over a `Host`-free run of tokens: tokens are taken two
      at a time as key and value, each pair overwriting the entry for its
      key; a last key without a value is dropped. */
  function Load(m: map<string, string>, kv: seq<string>): map<string, string>
    decreases |kv|
  {
    if |kv| < 2 then m else Load(m[kv[0] := kv[1]], kv[2..])
  }

  /** The run of tokens loadMap pairs up when it starts reading at
      `from`: everything before the next `Host`. */
  function Segment(vals: seq<string>, from: nat): seq<string>
    requires from <= |vals|
  {
    vals[from..HostIndex(vals, from)]
  }

  /** Where the cursor stands once loadMap, started at `from`, returns:
      just past the `Host` that ended it, or at the end of the stream. */
  function Resume(vals: seq<string>, from: nat): (n: nat)
    requires from <= |vals|
    ensures from <= n <= |vals|
  {
    var e := HostIndex(vals, from);
    if e < |vals| then e + 1 else |vals|
  }

  /** The section whose name token is at `pos`: its options are paired
      from the tokens after the name, up to the next `Host`. */
  function Head(vals: seq<string>, pos: nat): SectionData
    requires pos < |vals|
  {
    SectionData(vals[pos], Load(map[], Segment(vals, pos + 1)))
  }

  /** The sections read from the cursor position `pos` on: the token at
      `pos` names a section whose options are loaded from what follows. */
  function Build(vals: seq<string>, pos: nat): seq<SectionData>
    requires pos <= |vals|
    decreases |vals| - pos
  {
    if pos == |vals| then []
    else [Head(vals, pos)] + Build(vals, Resume(vals, pos + 1))
  }

  /** The result of Parse on the given lines. */
  function Parsed(lines: seq<string>): Result<seq<SectionData>>
  {
    var t := FileTokens(lines);
    if t == [] then Err(0)
    else if t[0].val != "Host" then Err(t[0].line)
    else Ok(Build(Vals(t), 1))
  }

  // ---------------------------------------------------------------------
  // The imperative code

  /** A Host section (parse.go:20-23): its name and its options. */
  class Section {
    var name: string
    var values: map<string, string>

    /** NewSection (parse.go:26-28): a section with no options yet. */
    constructor (name: string)
      ensures this.name == name && values == map[]
    {
      this.name := name;
      values := map[];
    }

    function Data(): SectionData
      reads this
    {
      SectionData(name, values)
    }

    /** loadMap (parse.go:89-105): read tokens from `start` on, pairing
        them into options, until a token `Host` (which is consumed) or the
        end of the stream; answer where the cursor then stands. */
    method LoadMap(tokens: seq<Token>, start: nat) returns (next: nat)
      requires start <= |tokens|
      modifies this`values
      ensures values == Load(old(values), Segment(Vals(tokens), start))
      ensures next == Resume(Vals(tokens), start)
    {
      ghost var vals := Vals(tokens);
      var hasKey := false;
      var key := "";
      var i := start;
      // The loop stops at a `Host` token or at the end of the stream; the
      // `Host` is consumed either way.
      while i < |tokens| && tokens[i].val != "Host"
        invariant start <= i <= |tokens|
        invariant forall j :: start <= j < i ==> vals[j] != "Host"
        invariant hasKey <==> (i - start) % 2 == 1
        invariant hasKey ==> key == vals[i - 1]
        invariant values == Load(old(values), vals[start..i])
      {
        var token := tokens[i];
        assert vals[start..i + 1] == vals[start..i] + [token.val];
        LoadPush(old(values), vals[start..i], token.val);
        if hasKey {
          values := values[key := token.val];
          hasKey := false;
        } else {
          key := token.val;
          hasKey := true;
        }
        i := i + 1;
      }
      HostIndexUnique(vals, start, i);
      next := if i < |tokens| then i + 1 else i;
    }
  }

  /** The values of a list of sections, in order. */
  function Snapshot(secs: seq<Section>): seq<SectionData>
    reads secs
  {
    if secs == [] then [] else Snapshot(secs[..|secs| - 1]) + [secs[|secs| - 1].Data()]
  }

  /** Parse (parse.go:109-129): lex the lines, demand `Host` as the first
      token, then read sections until the stream ends. */
  method Parse(lines: seq<string>) returns (res: Result<seq<Section>>)
    ensures res.Err? <==> Parsed(lines).Err?
    ensures res.Err? ==> res.line == Parsed(lines).line
    ensures res.Ok? ==> Snapshot(res.value) == Parsed(lines).value
    ensures res.Ok? ==> forall i, j :: 0 <= i < j < |res.value| ==> res.value[i] != res.value[j]
    ensures res.Ok? ==> forall s :: s in res.value ==> fresh(s)
  {
    var tokens := ParseFile(lines);
    // Receiving from the closed channel of an empty stream yields the zero
    // token: line 0, empty text.
    var first := if |tokens| > 0 then tokens[0] else Token(0, "");
    if first.val != "Host" {
      return Err(first.line);
    }
    var sections := ReadSections(tokens);
    return Ok(sections);
  }

  /** The loop of parse.go:122-126: each token read here names a new
      section, whose options loadMap then reads. */
  method ReadSections(tokens: seq<Token>) returns (sections: seq<Section>)
    requires |tokens| >= 1
    ensures Snapshot(sections) == Build(Vals(tokens), 1)
    ensures forall i, j :: 0 <= i < j < |sections| ==> sections[i] != sections[j]
    ensures forall s :: s in sections ==> fresh(s)
  {
    ghost var vals := Vals(tokens);
    sections := [];
    var pos := 1;
    while pos < |tokens|
      invariant 1 <= pos <= |tokens|
      invariant Snapshot(sections) + Build(vals, pos) == Build(vals, 1)
      invariant forall i, j :: 0 <= i < j < |sections| ==> sections[i] != sections[j]
      invariant forall s :: s in sections ==> fresh(s)
      decreases |tokens| - pos
    {
      ghost var before, p0 := Snapshot(sections), pos;
      var sec := new Section(tokens[pos].val);
      pos := sec.LoadMap(tokens, pos + 1);
      assert Snapshot(sections) == before;
      BuildStep(vals, p0, pos, before, sec.Data(), Build(vals, 1));
      SnapshotSnoc(sections, sec);
      assert sec !in sections;
      DistinctSnoc(sections, sec);
      sections := sections + [sec];
    }
  }

  /** One turn of Parse's loop: the section read at `p0` is the first of
      those Build reads from there, and the cursor moves to where Build
      continues. */
  lemma BuildStep(vals: seq<string>, p0: nat, pos: nat, before: seq<SectionData>, d: SectionData, goal: seq<SectionData>)
    requires p0 < |vals| && before + Build(vals, p0) == goal
    requires d == Head(vals, p0)
    requires pos == Resume(vals, p0 + 1)
    ensures (before + [d]) + Build(vals, pos) == goal
  {
    assert Build(vals, p0) == [d] + Build(vals, pos);
  }

  lemma DistinctSnoc(secs: seq<Section>, s: Section)
    requires forall i, j :: 0 <= i < j < |secs| ==> secs[i] != secs[j]
    requires s !in secs
    ensures forall i, j :: 0 <= i < j < |secs + [s]| ==> (secs + [s])[i] != (secs + [s])[j]
  {
  }

  lemma SnapshotSnoc(secs: seq<Section>, s: Section)
    ensures Snapshot(secs + [s]) == Snapshot(secs) + [s.Data()]
  {
    assert (secs + [s])[..|secs|] == secs;
  }

  // ---------------------------------------------------------------------
  // Facts about Load

  /** One more token for loadMap: it completes a pending key (odd run) or
      becomes the pending key itself (even run). */
  lemma LoadPush(m: map<string, string>, run: seq<string>, x: string)
    ensures |run| % 2 == 1 ==> Load(m, run) == Load(m, run[..|run| - 1])
    ensures |run| % 2 == 1 ==> Load(m, run + [x]) == Load(m, run)[run[|run| - 1] := x]
    ensures |run| % 2 == 0 ==> Load(m, run + [x]) == Load(m, run)
  {
    if |run| % 2 == 1 {
      var init := run[..|run| - 1];
      assert run == init + [run[|run| - 1]];
      assert run + [x] == init + [run[|run| - 1], x];
      LoadOdd(m, init, run[|run| - 1]);
      LoadSnoc(m, init, run[|run| - 1], x);
    } else {
      LoadOdd(m, run, x);
    }
  }

  /** Appending a key and its value to an even run sets that one entry. */
  lemma {:induction false} LoadSnoc(m: map<string, string>, kv: seq<string>, k: string, v: string)
    requires |kv| % 2 == 0
    ensures Load(m, kv + [k, v]) == Load(m, kv)[k := v]
    decreases |kv|
  {
    if |kv| >= 2 {
      assert (kv + [k, v])[2..] == kv[2..] + [k, v];
      LoadSnoc(m[kv[0] := kv[1]], kv[2..], k, v);
    } else {
      assert kv == [];
    }
  }

  /** A key still waiting for its value changes nothing. */
  lemma {:induction false} LoadOdd(m: map<string, string>, kv: seq<string>, k: string)
    requires |kv| % 2 == 0
    ensures Load(m, kv + [k]) == Load(m, kv)
    decreases |kv|
  {
    if |kv| >= 2 {
      assert (kv + [k])[2..] == kv[2..] + [k];
      LoadOdd(m[kv[0] := kv[1]], kv[2..], k);
    } else {
      assert kv == [];
    }
  }

  /** An entry whose key is not paired in the run keeps its old state:
      present or absent as before, with the same value. */
  lemma {:induction false} LoadUntouched(m: map<string, string>, kv: seq<string>, k: string)
    requires forall j :: 0 <= j < |kv| - 1 && j % 2 == 0 ==> kv[j] != k
    ensures k in Load(m, kv) <==> k in m
    ensures k in m ==> Load(m, kv)[k] == m[k]
    decreases |kv|
  {
    if |kv| >= 2 {
      var tail := kv[2..];
      assert kv[0] != k;
      forall j | 0 <= j < |tail| - 1 && j % 2 == 0 ensures tail[j] != k {
        assert tail[j] == kv[j + 2];
      }
      LoadUntouched(m[kv[0] := kv[1]], tail, k);
    }
  }

  /** Last write wins: a key paired at key position j and never again
      afterwards maps to the token right after it. */
  lemma {:induction false} LoadLast(m: map<string, string>, kv: seq<string>, j: nat)
    requires j < |kv| - 1 && j % 2 == 0
    requires forall i :: j < i < |kv| - 1 && i % 2 == 0 ==> kv[i] != kv[j]
    ensures kv[j] in Load(m, kv) && Load(m, kv)[kv[j]] == kv[j + 1]
    decreases |kv|
  {
    var tail := kv[2..];
    if j == 0 {
      forall i | 0 <= i < |tail| - 1 && i % 2 == 0 ensures tail[i] != kv[0] {
        assert tail[i] == kv[i + 2];
      }
      LoadUntouched(m[kv[0] := kv[1]], tail, kv[0]);
    } else {
      assert tail[j - 2] == kv[j] && tail[j - 1] == kv[j + 1];
      forall i | j - 2 < i < |tail| - 1 && i % 2 == 0 ensures tail[i] != tail[j - 2] {
        assert tail[i] == kv[i + 2];
      }
      LoadLast(m[kv[0] := kv[1]], tail, j - 2);
    }
  }

  // ---------------------------------------------------------------------
  // Facts about Build

  /** The indices of the name tokens of the sections Build reads from
      `pos`: each one after the first lies just past a `Host`. */
  function Starts(vals: seq<string>, pos: nat): (r: seq<nat>)
    requires pos <= |vals|
    ensures forall k :: 0 <= k < |r| ==> pos <= r[k] < |vals|
    decreases |vals| - pos
  {
    if pos == |vals| then [] else [pos] + Starts(vals, Resume(vals, pos + 1))
  }

  /** Build yields one section per start index, each the Head at that
      index. */
  lemma {:induction false} BuildStarts(vals: seq<string>, pos: nat)
    requires pos <= |vals|
    ensures |Build(vals, pos)| == |Starts(vals, pos)|
    ensures forall k :: 0 <= k < |Build(vals, pos)| ==> Build(vals, pos)[k] == Head(vals, Starts(vals, pos)[k])
    decreases |vals| - pos
  {
    if pos < |vals| {
      var r := Resume(vals, pos + 1);
      BuildStarts(vals, r);
      assert Build(vals, pos) == [Head(vals, pos)] + Build(vals, r);
      assert Starts(vals, pos) == [pos] + Starts(vals, r);
    }
  }

  /** Every section but the first starts just past a `Host`. */
  lemma {:induction false} StartsAfterHost(vals: seq<string>, pos: nat, k: nat)
    requires pos <= |vals| && 0 < k < |Starts(vals, pos)|
    ensures Starts(vals, pos)[k] > pos && vals[Starts(vals, pos)[k] - 1] == "Host"
    decreases k
  {
    var r := Resume(vals, pos + 1);
    var s, t := Starts(vals, pos), Starts(vals, r);
    assert s == [pos] + t;
    assert s[k] == t[k - 1];
    if k > 1 {
      StartsAfterHost(vals, r, k - 1);
    }
  }

  /** The next section starts just past the `Host` that ends section k. */
  lemma {:induction false} StartsNext(vals: seq<string>, pos: nat, k: nat)
    requires pos <= |vals| && k + 1 < |Starts(vals, pos)|
    ensures HostIndex(vals, Starts(vals, pos)[k] + 1) < |vals|
    ensures Starts(vals, pos)[k + 1] == HostIndex(vals, Starts(vals, pos)[k] + 1) + 1
    decreases k
  {
    var r := Resume(vals, pos + 1);
    var s, t := Starts(vals, pos), Starts(vals, r);
    assert s == [pos] + t;
    assert s[k + 1] == t[k];
    if k > 0 {
      StartsNext(vals, r, k - 1);
      assert s[k] == t[k - 1];
    }
  }

  /** The last section runs to the end of the stream, or to a `Host` that
      is the last token. */
  lemma {:induction false} StartsLast(vals: seq<string>, pos: nat)
    requires pos <= |vals| && Starts(vals, pos) != []
    ensures Resume(vals, Starts(vals, pos)[|Starts(vals, pos)| - 1] + 1) == |vals|
    decreases |vals| - pos
  {
    var r := Resume(vals, pos + 1);
    var s, t := Starts(vals, pos), Starts(vals, r);
    assert s == [pos] + t;
    if t != [] {
      StartsLast(vals, r);
      assert s[|s| - 1] == t[|t| - 1];
    }
  }

  /** loadMap never stores a `Host` token, as a key or as a value. */
  lemma {:induction false} LoadNoHost(m: map<string, string>, kv: seq<string>)
    requires "Host" !in m && forall k :: k in m ==> m[k] != "Host"
    requires forall j :: 0 <= j < |kv| ==> kv[j] != "Host"
    ensures "Host" !in Load(m, kv)
    ensures forall k :: k in Load(m, kv) ==> Load(m, kv)[k] != "Host"
    decreases |kv|
  {
    if |kv| >= 2 {
      var tail := kv[2..];
      assert forall j :: 0 <= j < |tail| ==> tail[j] == kv[j + 2];
      LoadNoHost(m[kv[0] := kv[1]], tail);
    }
  }

  /** No section's options hold `Host`, as a key or as a value: that token
      always ends a section. */
  lemma SectionNoHost(vals: seq<string>, pos: nat, k: nat)
    requires pos <= |vals| && k < |Build(vals, pos)|
    ensures "Host" !in Build(vals, pos)[k].values
    ensures forall key :: key in Build(vals, pos)[k].values ==> Build(vals, pos)[k].values[key] != "Host"
  {
    BuildStarts(vals, pos);
    var p := Starts(vals, pos)[k];
    var seg := Segment(vals, p + 1);
    assert forall j :: 0 <= j < |seg| ==> seg[j] == vals[p + 1 + j];
    LoadNoHost(map[], seg);
  }

  // ---------------------------------------------------------------------
  // Facts about Parse

  /** Parse fails with line 0 exactly when every line is blank or a
      comment (parse.go:115-120). */
  lemma ParsedEmpty(lines: seq<string>)
    ensures Parsed(lines) == Err(0) <==> forall i :: 0 <= i < |lines| ==> IsBlankOrComment(lines[i])
  {
    NoTokens(lines);
    var t := FileTokens(lines);
    if t != [] {
      FileTokensLines(lines);
      assert 1 <= t[0].line;
    }
  }

  /** Given the first line that is neither blank nor a comment, Parse fails
      exactly when that line's key is not `Host`, and then reports that
      line's number; otherwise the first section is named by that line's
      value (parse.go:115-126). */
  lemma ParsedFirst(lines: seq<string>, k: nat)
    requires 1 <= k <= |lines|
    requires forall i :: 0 <= i < k - 1 ==> IsBlankOrComment(lines[i])
    requires !IsBlankOrComment(lines[k - 1])
    ensures Parsed(lines).Err? <==> Key(TrimLeft(lines[k - 1])) != "Host"
    ensures Parsed(lines).Err? ==> Parsed(lines).line == k
    ensures Parsed(lines).Ok? ==>
      |Parsed(lines).value| >= 1 && Parsed(lines).value[0].name == Value(TrimLeft(lines[k - 1]))
  {
    FirstTokens(lines, k);
    var t := FileTokens(lines);
    var r := LineTokens(k, lines[k - 1]);
    LineTokensShape(k, lines[k - 1]);
    assert t[0] == r[0] && t[1] == r[1];
    if t[0].val == "Host" {
      BuildStarts(Vals(t), 1);
    }
  }
}
