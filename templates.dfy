/** Parsing of the per-faction army template files (GarrisonGenerator.py, `__load_templates__`).

    A template file is a sequence of sections, each introduced by a header line `#TAG` (one or
    more upper-case ASCII letters followed by a newline), each section holding one unit identifier
    per line. The loader splits the text on the headers, drops the text before the first header,
    and turns every section into one rank list; the faction key is the file name with every
    ".txt" removed. Reading the directory and the files is not modelled: the loader is given the
    (name, content) pairs.
 */
module Templates {

  /** One file of the template directory: its name and its full text. */
  datatype TemplateFile = TemplateFile(name: string, content: string)

  /** The string the loader removes from file names to obtain faction keys. */
  const Extension: string := ".txt"

  predicate IsUpper(c: char) {
    'A' <= c <= 'Z'
  }

  // ---------------------------------------------------------------------------------------------
  // Splitting on `#[A-Z]+\n` headers
  // ---------------------------------------------------------------------------------------------

  /** Length of the run of upper-case letters at the start of `s`. */
  function UpperRun(s: string): (k: nat)
    ensures k <= |s|
    ensures forall i :: 0 <= i < k ==> IsUpper(s[i])
    ensures k < |s| ==> !IsUpper(s[k])
  {
    if s != [] && IsUpper(s[0]) then 1 + UpperRun(s[1..]) else 0
  }

  /** Length of the header `#[A-Z]+\n` that `s` starts with, or 0 when it starts with none. */
  function HeaderLen(s: string): (h: nat)
    ensures h == 0 || (3 <= h <= |s| && s[0] == '#' && s[h - 1] == '\n')
    ensures h > 0 ==> forall i :: 1 <= i < h - 1 ==> IsUpper(s[i])
  {
    if |s| > 0 && s[0] == '#' then
      var k := UpperRun(s[1..]);
      if 0 < k && k + 1 < |s| && s[k + 1] == '\n' then k + 2 else 0
    else
      0
  }

  /** Splitting of `s` at every header, scanning left to right; `cur` is the text of the
      current piece read so far. The headers themselves are not part of any piece. */
  function SplitHeaders(s: string, cur: string): (pieces: seq<string>)
    ensures |pieces| >= 1
    decreases |s|
  {
    if s == [] then [cur]
    else
      var h := HeaderLen(s);
      if h > 0 then [cur] + SplitHeaders(s[h..], [])
      else SplitHeaders(s[1..], cur + [s[0]])
  }

  /** The pieces of a template text between its headers: the text before the first header,
      then one piece per header. */
  function Sections(s: string): seq<string> {
    SplitHeaders(s, [])
  }

  // ---------------------------------------------------------------------------------------------
  // Splitting on newlines
  // ---------------------------------------------------------------------------------------------

  /** The pieces joined back together with a newline between consecutive pieces. */
  function JoinLines(ps: seq<string>): string {
    if ps == [] then []
    else if |ps| == 1 then ps[0]
    else ps[0] + "\n" + JoinLines(ps[1..])
  }

  /** Splitting of `s` at every newline; `cur` is the current piece read so far. */
  function SplitLines(s: string, cur: string): (pieces: seq<string>)
    ensures |pieces| >= 1
    ensures '\n' !in cur ==> forall i :: 0 <= i < |pieces| ==> '\n' !in pieces[i]
    ensures |pieces| == 1 <==> '\n' !in s
    ensures JoinLines(pieces) == cur + s
    decreases |s|
  {
    if s == [] then [cur]
    else if s[0] == '\n' then [cur] + SplitLines(s[1..], [])
    else
      assert cur + s == (cur + [s[0]]) + s[1..];
      SplitLines(s[1..], cur + [s[0]])
  }

  /** The lines of `s`: one or more pieces, none holding a newline. */
  function Lines(s: string): (lines: seq<string>)
    ensures |lines| >= 1
    ensures forall i :: 0 <= i < |lines| ==> '\n' !in lines[i]
  {
    SplitLines(s, [])
  }

  /** The rank list of one section: its lines, without the last piece when there is more
      than one piece. */
  function RankUnits(section: string): (units: seq<string>)
    ensures |units| >= 1
    ensures forall i :: 0 <= i < |units| ==> '\n' !in units[i]
  {
    var lines := Lines(section);
    if |lines| > 1 then lines[..|lines| - 1] else lines
  }

  /** The rank lists of one template text: one per header, the text before the first header
      discarded. Every rank list holds at least one identifier, an empty section giving the
      empty identifier. */
  function ParseTemplate(content: string): (ranks: seq<seq<string>>)
    ensures forall k :: 0 <= k < |ranks| ==> ranks[k] != []
  {
    var sections := Sections(content);
    seq(|sections| - 1, i requires 0 <= i < |sections| - 1 => RankUnits(sections[i + 1]))
  }

  // ---------------------------------------------------------------------------------------------
  // Faction keys
  // ---------------------------------------------------------------------------------------------

  /** `s` with every occurrence of ".txt" removed, scanning left to right without overlap
      (Python's `str.replace(".txt", "")`). */
  function RemoveTxt(s: string): (r: string)
    ensures |r| <= |s|
    decreases |s|
  {
    if |s| >= 4 && s[..4] == Extension then RemoveTxt(s[4..])
    else if s == [] then []
    else [s[0]] + RemoveTxt(s[1..])
  }

  /** ".txt" occurs in `s` at position i. */
  predicate TxtAt(s: string, i: nat) {
    i + 4 <= |s| && s[i..i + 4] == Extension
  }

  /** The faction keys of a directory listing, file by file. */
  function FacNames(files: seq<TemplateFile>): seq<string> {
    seq(|files|, i requires 0 <= i < |files| => RemoveTxt(files[i].name))
  }

  /** The templates of a directory listing, file by file. */
  function ParseAll(files: seq<TemplateFile>): seq<seq<seq<string>>> {
    seq(|files|, i requires 0 <= i < |files| => ParseTemplate(files[i].content))
  }

  // ---------------------------------------------------------------------------------------------
  // Writing templates: the inverse of parsing
  // ---------------------------------------------------------------------------------------------

  predicate ValidTag(tag: string) {
    |tag| > 0 && forall i :: 0 <= i < |tag| ==> IsUpper(tag[i])
  }

  /** A unit identifier that fits on one line and cannot start a header. */
  predicate ValidUnit(u: string) {
    '#' !in u && '\n' !in u
  }

  predicate ValidRank(units: seq<string>) {
    |units| > 0 && forall i :: 0 <= i < |units| ==> ValidUnit(units[i])
  }

  /** A rank list written one identifier per line, every line ended by a newline. */
  function RenderRank(units: seq<string>): string {
    JoinLines(units + [[]])
  }

  /** A template file written as header line, rank list, header line, rank list, ... */
  function RenderTemplate(tags: seq<string>, ranks: seq<seq<string>>): string
    requires |tags| == |ranks|
  {
    if ranks == [] then []
    else "#" + tags[0] + "\n" + RenderRank(ranks[0]) + RenderTemplate(tags[1..], ranks[1..])
  }

  function RenderAll(ranks: seq<seq<string>>): seq<string> {
    seq(|ranks|, i requires 0 <= i < |ranks| => RenderRank(ranks[i]))
  }

  // ---------------------------------------------------------------------------------------------
  // Lemmas: header recognition
  // ---------------------------------------------------------------------------------------------

  /** A header line is recognised, with its exact length, whatever follows it. */
  lemma HeaderLenOfTag(tag: string, rest: string)
    requires ValidTag(tag)
    ensures HeaderLen("#" + tag + "\n" + rest) == |tag| + 2
  {
    var s := "#" + tag + "\n" + rest;
    var body := s[1..];
    assert body == tag + "\n" + rest;
    var k := UpperRun(body);
    assert forall i :: 0 <= i < |tag| ==> body[i] == tag[i] && IsUpper(body[i]);
    assert body[|tag|] == '\n' && !IsUpper(body[|tag|]);
    assert k == |tag|;
    assert s[k + 1] == '\n';
  }

  /** No header starts at any position of `body` when `body` is followed by `rest`. */
  predicate NoHeaderIn(body: string, rest: string)
    decreases |body|
  {
    body == [] || (HeaderLen(body + rest) == 0 && NoHeaderIn(body[1..], rest))
  }

  /** Text in which no header starts is copied into the current piece. */
  lemma {:induction false} SkipHeaderFree(body: string, rest: string, cur: string)
    requires NoHeaderIn(body, rest)
    ensures SplitHeaders(body + rest, cur) == SplitHeaders(rest, cur + body)
    decreases |body|
  {
    if body == [] {
      assert body + rest == rest;
      assert cur + body == cur;
    } else {
      var tail := body[1..];
      SkipOne(body, rest, cur);
      assert SplitHeaders(tail + rest, cur + [body[0]]) == SplitHeaders(rest, cur + body) by {
        SkipHeaderFree(tail, rest, cur + [body[0]]);
        assert cur + [body[0]] + tail == cur + body;
      }
    }
  }

  /** A first character that starts no header is appended to the current piece. */
  lemma SkipOne(body: string, rest: string, cur: string)
    requires body != [] && HeaderLen(body + rest) == 0
    ensures SplitHeaders(body + rest, cur) == SplitHeaders(body[1..] + rest, cur + [body[0]])
  {
    assert (body + rest)[1..] == body[1..] + rest;
  }

  /** Text without '#' cannot hold the start of a header. */
  lemma {:induction false} HashFreeNoHeader(body: string, rest: string)
    requires '#' !in body
    ensures NoHeaderIn(body, rest)
    decreases |body|
  {
    if body != [] {
      assert (body + rest)[0] == body[0];
      HashFreeNoHeader(body[1..], rest);
    }
  }

  /** Text without '#' is copied into the current piece. */
  lemma SkipHashFree(body: string, rest: string, cur: string)
    requires '#' !in body
    ensures SplitHeaders(body + rest, cur) == SplitHeaders(rest, cur + body)
  {
    HashFreeNoHeader(body, rest);
    SkipHeaderFree(body, rest, cur);
  }

  /** The current piece only affects the first piece of a split. */
  lemma {:induction false} SplitHeadersTail(s: string, a: string, b: string)
    ensures |SplitHeaders(s, a)| == |SplitHeaders(s, b)|
    ensures SplitHeaders(s, a)[1..] == SplitHeaders(s, b)[1..]
    decreases |s|
  {
    if s != [] && HeaderLen(s) == 0 {
      SplitHeadersTail(s[1..], a + [s[0]], b + [s[0]]);
    }
  }

  /** Text before the first header is discarded: prefixing a template with text in which no
      header starts does not change its rank lists. */
  lemma PreambleDiscarded(pre: string, content: string)
    requires NoHeaderIn(pre, content)
    ensures ParseTemplate(pre + content) == ParseTemplate(content)
  {
    SkipHeaderFree(pre, content, []);
    assert [] + pre == pre;
    SplitHeadersTail(content, pre, []);
  }

  /** A line such as "#notes" is not a header, since its tag is not upper case: before the first
      header it is discarded with the rest of the preamble. */
  lemma CommentLineDiscarded(content: string)
    ensures ParseTemplate("#notes\n" + content) == ParseTemplate(content)
  {
    var line := "#notes\n";
    assert UpperRun(line[1..]) == 0;
    HashFreeNoHeader(line[1..], content);
    assert line + content == [line[0]] + (line[1..] + content);
    assert NoHeaderIn(line, content);
    PreambleDiscarded(line, content);
  }

  /** A text in which no header starts yields no rank list. */
  lemma NoHeaderNoRanks(content: string)
    requires NoHeaderIn(content, [])
    ensures ParseTemplate(content) == []
  {
    assert content + [] == content;
    SkipHeaderFree(content, [], []);
  }

  // ---------------------------------------------------------------------------------------------
  // Lemmas: lines
  // ---------------------------------------------------------------------------------------------

  /** Text without a newline is copied into the current piece. */
  lemma {:induction false} SkipNewlineFree(body: string, rest: string, cur: string)
    requires '\n' !in body
    ensures SplitLines(body + rest, cur) == SplitLines(rest, cur + body)
    decreases |body|
  {
    if body == [] {
      assert body + rest == rest;
      assert cur + body == cur;
    } else {
      var s := body + rest;
      assert s[0] == body[0];
      assert s[1..] == body[1..] + rest;
      SkipNewlineFree(body[1..], rest, cur + [body[0]]);
      assert cur + [body[0]] + body[1..] == cur + body;
    }
  }

  /** Splitting the joined lines gives the lines back (the first one prefixed by `cur`). */
  lemma {:induction false} SplitJoinLines(ps: seq<string>, cur: string)
    requires |ps| >= 1
    requires forall i :: 0 <= i < |ps| ==> '\n' !in ps[i]
    ensures SplitLines(JoinLines(ps), cur) == [cur + ps[0]] + ps[1..]
    decreases |ps|
  {
    if |ps| == 1 {
      SkipNewlineFree(ps[0], [], cur);
      assert ps[0] + [] == ps[0];
    } else {
      var tail := "\n" + JoinLines(ps[1..]);
      assert JoinLines(ps) == ps[0] + tail;
      SkipNewlineFree(ps[0], tail, cur);
      assert tail[1..] == JoinLines(ps[1..]);
      SplitJoinLines(ps[1..], []);
      assert [] + ps[1..][0] == ps[1];
      assert [ps[1]] + ps[1..][1..] == ps[1..];
    }
  }

  /** Lines is the inverse of JoinLines on newline-free pieces. */
  lemma LinesOfJoin(ps: seq<string>)
    requires |ps| >= 1
    requires forall i :: 0 <= i < |ps| ==> '\n' !in ps[i]
    ensures Lines(JoinLines(ps)) == ps
  {
    SplitJoinLines(ps, []);
    assert [] + ps[0] == ps[0];
    assert [ps[0]] + ps[1..] == ps;
  }

  /** What a rank list keeps of its section: the section is the kept lines, a newline, and one
      dropped last line. When the section ends with a newline, the dropped line is empty;
      otherwise the last identifier is lost. */
  lemma RankUnitsDropsLastLine(section: string)
    requires '\n' in section
    ensures var lines := Lines(section);
            var last := lines[|lines| - 1];
            '\n' !in last &&
            section == JoinLines(RankUnits(section)) + "\n" + last
  {
    JoinLastLine(Lines(section));
  }

  lemma {:induction false} JoinLastLine(ps: seq<string>)
    requires |ps| >= 2
    ensures JoinLines(ps) == JoinLines(ps[..|ps| - 1]) + "\n" + ps[|ps| - 1]
    decreases |ps|
  {
    if |ps| > 2 {
      JoinLastLine(ps[1..]);
      assert ps[1..][..|ps| - 2] == ps[..|ps| - 1][1..];
    }
  }

  /** A final newline only adds an empty last piece. */
  lemma {:induction false} SplitLinesNewlineEnded(x: string, cur: string)
    ensures SplitLines(x + "\n", cur) == SplitLines(x, cur) + [[]]
    decreases |x|
  {
    if x != [] {
      assert (x + "\n")[1..] == x[1..] + "\n";
      SplitLinesNewlineEnded(x[1..], if x[0] == '\n' then [] else cur + [x[0]]);
    }
  }

  /** A section ending in a newline keeps all its lines, and writing them back one per line
      restores the section. */
  lemma RankUnitsOfNewlineEnded(x: string)
    ensures RankUnits(x + "\n") == Lines(x)
    ensures RenderRank(RankUnits(x + "\n")) == x + "\n"
  {
    SplitLinesNewlineEnded(x, []);
    var lines := Lines(x);
    assert (lines + [[]])[..|lines|] == lines;
    JoinLastLine(lines + [[]]);
  }

  /** A section with no newline is a rank list of one identifier, itself. */
  lemma RankUnitsOneLine(section: string)
    requires '\n' !in section
    ensures RankUnits(section) == [section]
  {
    SkipNewlineFree(section, [], []);
    assert section + [] == section;
    assert [] + section == section;
  }

  /** A rank list written one identifier per line parses back to itself. */
  lemma RankUnitsOfRender(units: seq<string>)
    requires ValidRank(units)
    ensures RankUnits(RenderRank(units)) == units
  {
    var ps := units + [[]];
    assert forall i :: 0 <= i < |ps| ==> '\n' !in ps[i] by {
      forall i | 0 <= i < |ps| ensures '\n' !in ps[i] {
        if i < |units| { assert ps[i] == units[i]; }
      }
    }
    LinesOfJoin(ps);
    assert ps[..|ps| - 1] == units;
  }

  // ---------------------------------------------------------------------------------------------
  // Lemmas: whole templates
  // ---------------------------------------------------------------------------------------------

  lemma {:induction false} NotInJoin(c: char, ps: seq<string>)
    requires c != '\n'
    requires forall i :: 0 <= i < |ps| ==> c !in ps[i]
    ensures c !in JoinLines(ps)
    decreases |ps|
  {
    if |ps| > 1 {
      NotInJoin(c, ps[1..]);
    }
  }

  lemma HashFreeRank(units: seq<string>)
    requires ValidRank(units)
    ensures '#' !in RenderRank(units)
  {
    var ps := units + [[]];
    forall i | 0 <= i < |ps| ensures '#' !in ps[i] {
      if i < |units| { assert ps[i] == units[i]; }
    }
    NotInJoin('#', ps);
  }

  /** A header line written from a valid tag ends the current piece and starts a new one. */
  lemma HeaderStep(tag: string, text: string, prefix: string)
    requires ValidTag(tag)
    ensures SplitHeaders("#" + tag + "\n" + text, prefix) == [prefix] + SplitHeaders(text, [])
  {
    var s := "#" + tag + "\n" + text;
    HeaderLenOfTag(tag, text);
    assert s[|tag| + 2..] == text;
  }

  lemma RenderAllCons(ranks: seq<seq<string>>)
    requires ranks != []
    ensures RenderAll(ranks) == [RenderRank(ranks[0])] + RenderAll(ranks[1..])
  {
    var l, r := RenderAll(ranks), [RenderRank(ranks[0])] + RenderAll(ranks[1..]);
    forall i | 0 <= i < |l| ensures l[i] == r[i] {
      if i > 0 { assert r[i] == RenderAll(ranks[1..])[i - 1]; }
    }
  }

  /** Text without '#' followed by a written template: the first piece ends at the first header,
      and the rest is split from the first written rank list on. */
  lemma FirstHeader(body: string, cur: string, tags: seq<string>, ranks: seq<seq<string>>)
    requires '#' !in body
    requires |tags| == |ranks| && ranks != [] && ValidTag(tags[0])
    ensures SplitHeaders(body + RenderTemplate(tags, ranks), cur) ==
            [cur + body] + SplitHeaders(RenderRank(ranks[0]) + RenderTemplate(tags[1..], ranks[1..]), [])
  {
    var rest := RenderTemplate(tags, ranks);
    var tail := RenderRank(ranks[0]) + RenderTemplate(tags[1..], ranks[1..]);
    SkipHashFree(body, rest, cur);
    assert rest == "#" + tags[0] + "\n" + tail;
    HeaderStep(tags[0], tail, cur + body);
  }

  /** The sections of a written template are its written rank lists. */
  lemma {:induction false} SectionsOfRender(body: string, cur: string, tags: seq<string>, ranks: seq<seq<string>>)
    requires '#' !in body
    requires |tags| == |ranks|
    requires forall i :: 0 <= i < |tags| ==> ValidTag(tags[i]) && ValidRank(ranks[i])
    ensures SplitHeaders(body + RenderTemplate(tags, ranks), cur) == [cur + body] + RenderAll(ranks)
    decreases |ranks|
  {
    if ranks == [] {
      SkipHashFree(body, [], cur);
      assert body + [] == body;
      assert RenderAll(ranks) == [];
    } else {
      var r0 := RenderRank(ranks[0]);
      FirstHeader(body, cur, tags, ranks);
      HashFreeRank(ranks[0]);
      forall i | 0 <= i < |tags[1..]| ensures ValidTag(tags[1..][i]) && ValidRank(ranks[1..][i]) {
        assert tags[1..][i] == tags[i + 1] && ranks[1..][i] == ranks[i + 1];
      }
      SectionsOfRender(r0, [], tags[1..], ranks[1..]);
      assert [] + r0 == r0;
      RenderAllCons(ranks);
    }
  }

  /** Round trip: a template written with valid tags and non-empty rank lists of valid
      identifiers, after any preamble without '#', parses back to exactly its rank lists,
      one per header. */
  lemma ParseRendered(pre: string, tags: seq<string>, ranks: seq<seq<string>>)
    requires |tags| == |ranks|
    requires NoHeaderIn(pre, RenderTemplate(tags, ranks))
    requires forall i :: 0 <= i < |tags| ==> ValidTag(tags[i]) && ValidRank(ranks[i])
    ensures ParseTemplate(pre + RenderTemplate(tags, ranks)) == ranks
  {
    var text := RenderTemplate(tags, ranks);
    PreambleDiscarded(pre, text);
    SectionsOfRender([], [], tags, ranks);
    assert [] + text == text;
    var parsed := ParseTemplate(text);
    assert |parsed| == |ranks|;
    forall i | 0 <= i < |ranks| ensures parsed[i] == ranks[i] {
      RankUnitsOfRender(ranks[i]);
    }
  }

  // ---------------------------------------------------------------------------------------------
  // Lemmas: faction keys
  // ---------------------------------------------------------------------------------------------

  /** Appending the extension does not change the faction key: ".txt" cannot overlap the end
      of the preceding text. */
  lemma {:induction false} RemoveTxtSuffix(s: string)
    ensures RemoveTxt(s + Extension) == RemoveTxt(s)
    decreases |s|
  {
    var t := s + Extension;
    if s == [] {
      assert t == Extension;
      assert t[4..] == [];
    } else if |s| >= 4 && s[..4] == Extension {
      assert t[..4] == s[..4];
      assert t[4..] == s[4..] + Extension;
      RemoveTxtSuffix(s[4..]);
    } else {
      if |s| >= 4 {
        assert t[..4] == s[..4];
      } else {
        assert t[|s|] == '.';
        assert Extension[|s|] != '.';
      }
      assert t[..4] != Extension;
      assert t[1..] == s[1..] + Extension;
      RemoveTxtSuffix(s[1..]);
    }
  }

  /** A name in which ".txt" does not occur is its own faction key. */
  lemma {:induction false} RemoveTxtIdentity(s: string)
    requires forall i: nat :: !TxtAt(s, i)
    ensures RemoveTxt(s) == s
    decreases |s|
  {
    if s != [] {
      assert !TxtAt(s, 0);
      forall i: nat ensures !TxtAt(s[1..], i) {
        assert !TxtAt(s, i + 1);
        if i + 4 <= |s[1..]| {
          assert s[1..][i..i + 4] == s[i + 1..i + 5];
        }
      }
      RemoveTxtIdentity(s[1..]);
    }
  }

  /** The faction key of "<base>.txt" is base, when ".txt" does not occur in base. */
  lemma FactionKeyOfFileName(base: string)
    requires forall i: nat :: !TxtAt(base, i)
    ensures RemoveTxt(base + Extension) == base
  {
    RemoveTxtSuffix(base);
    RemoveTxtIdentity(base);
  }
}
