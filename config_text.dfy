/** Configuration text the parser accepts, written out from Host blocks,
    and what Parse makes of it: rendering well-formed blocks and parsing
    the result gives back one section per block, with the block's name
    and its options (the last value of a repeated key winning). */
module ConfigText {
  import opened Lexer
  import opened Sections

  /** One option line: a key and its value. */
  datatype Directive = Directive(key: string, value: string)

  /** A `Host` line and the option lines under it. */
  datatype HostBlock = HostBlock(name: string, directives: seq<Directive>)

  /** A key the lexer reads back whole: non-empty, no space or tab, not
      starting a comment, and not the word that opens a section. */
  predicate ValidKey(k: string) {
    k != [] && NoSpace(k) && k[0] != '#' && k != "Host"
  }

  /** A value the lexer reads back whole: no comment mark, no surrounding
      blanks, and not the word that opens a section. */
  predicate ValidValue(v: string) {
    '#' !in v && IsTrimmed(v) && v != "Host"
  }

  /** A section name the lexer reads back whole. It may be `Host`: the
      name token is never compared. */
  predicate ValidName(n: string) {
    '#' !in n && IsTrimmed(n)
  }

  /** No key and no value is the word that opens a section. */
  predicate HostFree(ds: seq<Directive>) {
    forall i :: 0 <= i < |ds| ==> ds[i].key != "Host" && ds[i].value != "Host"
  }

  predicate ValidBlock(b: HostBlock) {
    ValidName(b.name) &&
    forall i :: 0 <= i < |b.directives| ==> ValidKey(b.directives[i].key) && ValidValue(b.directives[i].value)
  }

  function HostLine(name: string): string {
    "Host " + name
  }

  function DirectiveLine(d: Directive): string {
    "\t" + d.key + " " + d.value
  }

  function RenderDirectives(ds: seq<Directive>): (r: seq<string>)
    ensures |r| == |ds|
  {
    if ds == [] then [] else RenderDirectives(ds[..|ds| - 1]) + [DirectiveLine(ds[|ds| - 1])]
  }

  function RenderBlock(b: HostBlock): seq<string> {
    [HostLine(b.name)] + RenderDirectives(b.directives)
  }

  /** The configuration text of a list of blocks, one line per element. */
  function Render(bs: seq<HostBlock>): seq<string> {
    if bs == [] then [] else RenderBlock(bs[0]) + Render(bs[1..])
  }

  /** The options of a block, later directives overriding earlier ones. */
  function Options(ds: seq<Directive>): map<string, string> {
    if ds == [] then map[] else Options(ds[..|ds| - 1])[ds[|ds| - 1].key := ds[|ds| - 1].value]
  }

  /** The sections a list of blocks stands for. */
  function Expected(bs: seq<HostBlock>): seq<SectionData> {
    if bs == [] then [] else [SectionData(bs[0].name, Options(bs[0].directives))] + Expected(bs[1..])
  }

  /** The token texts of the directives of a block, key then value. */
  function DirVals(ds: seq<Directive>): (r: seq<string>)
    ensures |r| == 2 * |ds|
  {
    if ds == [] then [] else DirVals(ds[..|ds| - 1]) + [ds[|ds| - 1].key, ds[|ds| - 1].value]
  }

  /** The token texts of a list of blocks. */
  function TextVals(bs: seq<HostBlock>): seq<string> {
    if bs == [] then [] else ["Host", bs[0].name] + DirVals(bs[0].directives) + TextVals(bs[1..])
  }

  // ---------------------------------------------------------------------
  // Lexing rendered lines

  /** A line made of blanks, a key and a rest that is empty or starts with
      a blank lexes to the key and to the rest cut at `#` and trimmed. */
  lemma KeyLine(n: nat, indent: string, key: string, rest: string)
    requires AllSpace(indent) && key != [] && NoSpace(key) && key[0] != '#'
    requires rest == [] || IsSpace(rest[0])
    ensures LineTokens(n, indent + key + rest) == [Token(n, key), Token(n, Uncomment(rest))]
  {
    var l := key + rest;
    assert indent + key + rest == indent + l;
    TrimLeftOf(indent, l);
    KeyEndOf(key, rest);
    assert l[..|key|] == key && l[|key|..] == rest;
    UncommentTrim(rest);
  }

  /** Uncomment gives back a value followed by blanks and, possibly, a
      comment. */
  lemma UncommentOf(gap: string, v: string, gap2: string, comment: string)
    requires AllSpace(gap) && '#' !in v && IsTrimmed(v) && AllSpace(gap2)
    requires comment == [] || comment[0] == '#'
    ensures Uncomment(gap + v + gap2 + comment) == v
  {
    var c := gap + v + gap2;
    assert forall i :: 0 <= i < |c| ==> c[i] != '#' by {
      forall i | 0 <= i < |c| ensures c[i] != '#' {
        if i < |gap| {
          assert c[i] == gap[i];
        } else if i < |gap| + |v| {
          assert c[i] == v[i - |gap|];
        } else {
          assert c[i] == gap2[i - |gap| - |v|];
        }
      }
    }
    CommentStartOf(c, comment);
    assert (c + comment)[..|c|] == c;
    TrimOf(gap, v, gap2);
  }

  /** A line `indent key gap value gap2 comment` lexes to the key and the
      value, whatever blanks surround them and whatever the comment says. */
  lemma LineVals(l: string, indent: string, key: string, gap: string, v: string, gap2: string, comment: string)
    requires l == indent + key + (gap + v + gap2 + comment)
    requires AllSpace(indent) && key != [] && NoSpace(key) && key[0] != '#'
    requires gap + v + gap2 + comment == [] || IsSpace((gap + v + gap2 + comment)[0])
    requires AllSpace(gap) && '#' !in v && IsTrimmed(v) && AllSpace(gap2)
    requires comment == [] || comment[0] == '#'
    ensures Vals(LineTokens(0, l)) == [key, v]
  {
    KeyLine(0, indent, key, gap + v + gap2 + comment);
    UncommentOf(gap, v, gap2, comment);
  }

  lemma HostLineTokens(n: nat, name: string)
    requires ValidName(name)
    ensures LineTokens(n, HostLine(name)) == [Token(n, "Host"), Token(n, name)]
  {
    assert HostLine(name) == [] + "Host" + (" " + name);
    KeyLine(n, [], "Host", " " + name);
    UncommentOf(" ", name, [], []);
    assert " " + name + [] + [] == " " + name;
  }

  lemma DirectiveLineTokens(n: nat, d: Directive)
    requires ValidKey(d.key) && ValidValue(d.value)
    ensures LineTokens(n, DirectiveLine(d)) == [Token(n, d.key), Token(n, d.value)]
  {
    assert DirectiveLine(d) == "\t" + d.key + (" " + d.value);
    KeyLine(n, "\t", d.key, " " + d.value);
    UncommentOf(" ", d.value, [], []);
    assert " " + d.value + [] + [] == " " + d.value;
  }

  lemma {:induction false} DirectivesVals(ds: seq<Directive>)
    requires forall i :: 0 <= i < |ds| ==> ValidKey(ds[i].key) && ValidValue(ds[i].value)
    ensures Vals(FileTokens(RenderDirectives(ds))) == DirVals(ds)
  {
    if ds != [] {
      var init, last := ds[..|ds| - 1], ds[|ds| - 1];
      var lines := RenderDirectives(ds);
      assert lines[..|lines| - 1] == RenderDirectives(init);
      DirectivesVals(init);
      FileValsSnoc(lines);
      DirectiveLineTokens(0, last);
    }
  }

  /** The token texts of one rendered block. */
  lemma BlockVals(b: HostBlock)
    requires ValidBlock(b)
    ensures Vals(FileTokens(RenderBlock(b))) == ["Host", b.name] + DirVals(b.directives)
  {
    var h := [HostLine(b.name)];
    FileValsAppend(h, RenderDirectives(b.directives));
    FileValsSnoc(h);
    assert h[..0] == [];
    HostLineTokens(0, b.name);
    assert Vals([Token(0, "Host"), Token(0, b.name)]) == ["Host", b.name];
    assert Vals(FileTokens(h)) == ["Host", b.name];
    DirectivesVals(b.directives);
  }

  /** The token texts of a rendered list of valid blocks. */
  lemma {:induction false} RenderVals(bs: seq<HostBlock>)
    requires forall i :: 0 <= i < |bs| ==> ValidBlock(bs[i])
    ensures Vals(FileTokens(Render(bs))) == TextVals(bs)
  {
    if bs != [] {
      assert ValidBlock(bs[0]);
      RenderVals(bs[1..]);
      FileValsAppend(RenderBlock(bs[0]), Render(bs[1..]));
      BlockVals(bs[0]);
    }
  }

  // ---------------------------------------------------------------------
  // Building sections from the texts of rendered blocks

  /** Directive texts are keys and values, never `Host`. */
  lemma {:induction false} DirValsNoHost(ds: seq<Directive>)
    requires HostFree(ds)
    ensures forall j :: 0 <= j < |DirVals(ds)| ==> DirVals(ds)[j] != "Host"
  {
    if ds != [] {
      var init := ds[..|ds| - 1];
      DirValsNoHost(init);
      assert DirVals(ds) == DirVals(init) + [ds[|ds| - 1].key, ds[|ds| - 1].value];
    }
  }

  /** loadMap over the texts of a block's directives gives its options. */
  lemma {:induction false} OptionsLoad(ds: seq<Directive>)
    ensures Load(map[], DirVals(ds)) == Options(ds)
  {
    if ds != [] {
      var init, last := ds[..|ds| - 1], ds[|ds| - 1];
      OptionsLoad(init);
      LoadSnoc(map[], DirVals(init), last.key, last.value);
    }
  }

  /** Where Host is searched for from inside the second of two runs, the
      first one does not matter. */
  lemma HostIndexShift(p: seq<string>, q: seq<string>, k: nat)
    requires k <= |q|
    ensures HostIndex(p + q, |p| + k) == |p| + HostIndex(q, k)
  {
    var i := HostIndex(q, k);
    forall j | |p| + k <= j < |p| + i ensures (p + q)[j] != "Host" {
      assert (p + q)[j] == q[j - |p|];
    }
    if i < |q| {
      assert (p + q)[|p| + i] == q[i];
    }
    HostIndexUnique(p + q, |p| + k, |p| + i);
  }

  /** The section named inside the second of two runs, and where the
      cursor then resumes, do not depend on the first run. */
  lemma HeadShift(p: seq<string>, q: seq<string>, k: nat)
    requires k < |q|
    ensures Head(p + q, |p| + k) == Head(q, k)
    ensures Resume(p + q, |p| + k + 1) == |p| + Resume(q, k + 1)
  {
    var v := p + q;
    HostIndexShift(p, q, k + 1);
    assert Segment(v, |p| + k + 1) == Segment(q, k + 1);
    assert v[|p| + k] == q[k];
  }

  /** The sections read from inside the second of two runs do not depend on
      the first one. */
  lemma {:induction false} BuildShift(p: seq<string>, q: seq<string>, k: nat)
    requires k <= |q|
    ensures Build(p + q, |p| + k) == Build(q, k)
    decreases |q| - k
  {
    if k < |q| {
      HeadShift(p, q, k);
      var r := Resume(q, k + 1);
      BuildShift(p, q, r);
      assert Build(p + q, |p| + k) == [Head(q, k)] + Build(p + q, |p| + r);
    }
  }

  /** The sections read from the texts of valid blocks, after their first
      `Host`, are the sections those blocks stand for. */
  lemma {:induction false} BuildText(bs: seq<HostBlock>)
    requires bs != [] && forall i :: 0 <= i < |bs| ==> HostFree(bs[i].directives)
    ensures Build(TextVals(bs), 1) == Expected(bs)
  {
    var b, rest := bs[0], bs[1..];
    assert HostFree(b.directives);
    var d, r := DirVals(b.directives), TextVals(rest);
    var p := ["Host", b.name] + d;
    var vals := TextVals(bs);
    assert vals == p + r;
    DirValsNoHost(b.directives);
    forall j | 2 <= j < 2 + |d| ensures vals[j] != "Host" {
      assert vals[j] == d[j - 2];
    }
    if r != [] {
      assert vals[2 + |d|] == r[0];
    }
    HostIndexUnique(vals, 2, 2 + |d|);
    assert Segment(vals, 2) == d;
    OptionsLoad(b.directives);
    assert Head(vals, 1) == SectionData(b.name, Options(b.directives));
    assert Build(vals, 1) == [Head(vals, 1)] + Build(vals, Resume(vals, 2));
    if rest == [] {
      assert r == [];
      assert Resume(vals, 2) == |vals|;
    } else {
      assert Resume(vals, 2) == |p| + 1;
      BuildShift(p, r, 1);
      BuildText(rest);
    }
  }

  /** Round trip: parsing the rendering of valid blocks gives back one
      section per block, in order, with the block's name and its options;
      with no block at all Parse fails with line 0. */
  lemma RenderParse(bs: seq<HostBlock>)
    requires forall i :: 0 <= i < |bs| ==> ValidBlock(bs[i])
    ensures Parsed(Render(bs)) == if bs == [] then Err(0) else Ok(Expected(bs))
  {
    RenderVals(bs);
    if bs != [] {
      var t := FileTokens(Render(bs));
      assert Vals(t)[0] == "Host";
      BuildText(bs);
    }
  }

  /** The key is cut at the first blank only: a `#` inside it stays, and
      what follows the key is still read as the value. */
  lemma HashInKey(l: string)
    requires l == "Opt#ion" + " " + "value"
    ensures Vals(LineTokens(0, l)) == ["Opt#ion", "value"]
  {
    LineVals(l, [], "Opt#ion", " ", "value", [], []);
  }

  // ---------------------------------------------------------------------
  // The example of parse_test.go

  /** The input of TestHostSection (parse_test.go:16-22), line by line; each
      line is spelled as the concatenation of its key, blanks, value and
      comment, which is the same string. */
  function HostSectionInput(): seq<string> {
    [ "#" + " Some example Host section",
      "Host" + " " + "local" + " " + "# Local SSH",
      "\t" + "OptionOne" + " " + "do anything here",
      "\t" + "OptionTwo" + " " + "12345" + " " + "# There is also a comment",
      "\t" + "OptionWithoutValue",
      "\t" + "OptionsWithComment" + " " + "# Comment" ]
  }

  /** What that input stands for: one block with four options. */
  function HostSectionBlock(): HostBlock {
    HostBlock("local", [
      Directive("OptionOne", "do anything here"),
      Directive("OptionTwo", "12345"),
      Directive("OptionWithoutValue", ""),
      Directive("OptionsWithComment", "")])
  }

  /** The token texts of each line of that input. */
  lemma HostSectionLine0(l: string)
    requires l == "#" + " Some example Host section"
    ensures Vals(LineTokens(0, l)) == []
  {
    LineTokensShape(0, l);
  }

  lemma HostSectionLine1(l: string)
    requires l == "Host" + " " + "local" + " " + "# Local SSH"
    ensures Vals(LineTokens(0, l)) == ["Host", "local"]
  {
    LineVals(l, [], "Host", " ", "local", " ", "# Local SSH");
  }

  lemma HostSectionLine2(l: string)
    requires l == "\t" + "OptionOne" + " " + "do anything here"
    ensures Vals(LineTokens(0, l)) == ["OptionOne", "do anything here"]
  {
    LineVals(l, "\t", "OptionOne", " ", "do anything here", [], []);
  }

  lemma HostSectionLine3(l: string)
    requires l == "\t" + "OptionTwo" + " " + "12345" + " " + "# There is also a comment"
    ensures Vals(LineTokens(0, l)) == ["OptionTwo", "12345"]
  {
    LineVals(l, "\t", "OptionTwo", " ", "12345", " ", "# There is also a comment");
  }

  lemma HostSectionLine4(l: string)
    requires l == "\t" + "OptionWithoutValue"
    ensures Vals(LineTokens(0, l)) == ["OptionWithoutValue", ""]
  {
    LineVals(l, "\t", "OptionWithoutValue", [], [], [], []);
  }

  lemma HostSectionLine5(l: string)
    requires l == "\t" + "OptionsWithComment" + " " + "# Comment"
    ensures Vals(LineTokens(0, l)) == ["OptionsWithComment", ""]
  {
    LineVals(l, "\t", "OptionsWithComment", " ", [], [], "# Comment");
  }

  /** A line in front of others adds its texts in front of theirs. */
  lemma SixLines(l0: string, l1: string, l2: string, l3: string, l4: string, l5: string)
    ensures Vals(FileTokens([l0] + ([l1] + ([l2] + ([l3] + ([l4] + [l5])))))) ==
      Vals(LineTokens(0, l0)) + (Vals(LineTokens(0, l1)) + (Vals(LineTokens(0, l2)) +
      (Vals(LineTokens(0, l3)) + (Vals(LineTokens(0, l4)) + Vals(FileTokens([l5]))))))
  {
    FileValsCons(l4, [l5]);
    FileValsCons(l3, [l4] + [l5]);
    FileValsCons(l2, [l3] + ([l4] + [l5]));
    FileValsCons(l1, [l2] + ([l3] + ([l4] + [l5])));
    FileValsCons(l0, [l1] + ([l2] + ([l3] + ([l4] + [l5]))));
  }

  /** The token texts of the whole input are those of the block it stands
      for: the comment line adds none. */
  lemma HostSectionVals(l0: string, l1: string, l2: string, l3: string, l4: string, l5: string)
    requires Vals(LineTokens(0, l0)) == []
    requires Vals(LineTokens(0, l1)) == ["Host", "local"]
    requires Vals(LineTokens(0, l2)) == ["OptionOne", "do anything here"]
    requires Vals(LineTokens(0, l3)) == ["OptionTwo", "12345"]
    requires Vals(LineTokens(0, l4)) == ["OptionWithoutValue", ""]
    requires Vals(LineTokens(0, l5)) == ["OptionsWithComment", ""]
    ensures Vals(FileTokens([l0] + ([l1] + ([l2] + ([l3] + ([l4] + [l5])))))) ==
      TextVals([HostSectionBlock()])
  {
    SixLines(l0, l1, l2, l3, l4, l5);
    FileValsCons(l5, []);
    assert [l5] + [] == [l5];
    assert Vals(FileTokens([])) == [];
    HostSectionText();
  }

  lemma HostSectionText()
    ensures TextVals([HostSectionBlock()]) ==
      [] + (["Host", "local"] + (["OptionOne", "do anything here"] + (["OptionTwo", "12345"] +
      (["OptionWithoutValue", ""] + (["OptionsWithComment", ""] + [])))))
  {
    var b := HostSectionBlock();
    var ds := b.directives;
    assert ds[..1][..0] == [] && ds[..2][..1] == ds[..1] && ds[..3][..2] == ds[..2] && ds[..4] == ds;
    assert DirVals(ds[..1]) == ["OptionOne", "do anything here"];
    assert DirVals(ds[..2]) == ["OptionOne", "do anything here", "OptionTwo", "12345"];
    assert DirVals(ds[..3]) == ["OptionOne", "do anything here", "OptionTwo", "12345", "OptionWithoutValue", ""];
    assert [b][1..] == [];
  }

  lemma HostSectionParsed(l0: string, l1: string, l2: string, l3: string, l4: string, l5: string)
    requires Vals(LineTokens(0, l0)) == []
    requires Vals(LineTokens(0, l1)) == ["Host", "local"]
    requires Vals(LineTokens(0, l2)) == ["OptionOne", "do anything here"]
    requires Vals(LineTokens(0, l3)) == ["OptionTwo", "12345"]
    requires Vals(LineTokens(0, l4)) == ["OptionWithoutValue", ""]
    requires Vals(LineTokens(0, l5)) == ["OptionsWithComment", ""]
    ensures Parsed([l0] + ([l1] + ([l2] + ([l3] + ([l4] + [l5]))))) == Ok(Expected([HostSectionBlock()]))
  {
    var ls := [l0] + ([l1] + ([l2] + ([l3] + ([l4] + [l5]))));
    HostSectionVals(l0, l1, l2, l3, l4, l5);
    BuildText([HostSectionBlock()]);
    assert Vals(FileTokens(ls))[0] == "Host";
  }

  /** The sections that block stands for. */
  lemma HostSectionExpected()
    ensures Expected([HostSectionBlock()]) == [SectionData("local", map[
      "OptionOne" := "do anything here",
      "OptionTwo" := "12345",
      "OptionWithoutValue" := "",
      "OptionsWithComment" := ""])]
  {
    var b := HostSectionBlock();
    var ds := b.directives;
    assert ds[..1][..0] == [] && ds[..2][..1] == ds[..1] && ds[..3][..2] == ds[..2] && ds[..4] == ds;
    assert Options(ds[..1]) == map["OptionOne" := "do anything here"];
    assert Options(ds[..2]) == map["OptionOne" := "do anything here", "OptionTwo" := "12345"];
    assert Options(ds[..3]) == map["OptionOne" := "do anything here", "OptionTwo" := "12345",
      "OptionWithoutValue" := ""];
    assert [b][1..] == [];
  }

  /** TestHostSection (parse_test.go:15-48): the example parses to exactly
      one section, named `local`, whose options are the two values and the
      two empty values the test expects. */
  lemma HostSectionParse()
    ensures Parsed(HostSectionInput()) == Ok([SectionData("local", map[
      "OptionOne" := "do anything here",
      "OptionTwo" := "12345",
      "OptionWithoutValue" := "",
      "OptionsWithComment" := ""])])
  {
    var ls := HostSectionInput();
    HostSectionLine0(ls[0]);
    HostSectionLine1(ls[1]);
    HostSectionLine2(ls[2]);
    HostSectionLine3(ls[3]);
    HostSectionLine4(ls[4]);
    HostSectionLine5(ls[5]);
    HostSectionParsed(ls[0], ls[1], ls[2], ls[3], ls[4], ls[5]);
    assert ls == [ls[0]] + ([ls[1]] + ([ls[2]] + ([ls[3]] + ([ls[4]] + [ls[5]]))));
    HostSectionExpected();
  }
}
