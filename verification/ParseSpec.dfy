// The panel-description format: what the in-place parser computes, as a function of the
// text, and that it undoes printing.

module ParseSpec {
  const NUL: char := '\0'
  const MAX_NODES: nat := 20  // DSI_PARSER_MAX_NODES

  predicate IsSpace(c: char) {
    c == ' ' || c == '\t' || c == '\n' || c == '\r' || c as int == 11 || c as int == 12 || c as int == 160
  }

  predicate IsStop(c: char) {
    c == '{' || c == '}' || c == '\0'
  }

  /** strreplace(.., '*', ' '). */
  function Star(w: string): (r: string)
    ensures |r| == |w| && forall i :: 0 <= i < |w| ==> r[i] == if w[i] == '*' then ' ' else w[i]
  {
    seq(|w|, i requires 0 <= i < |w| => if w[i] == '*' then ' ' else w[i])
  }

  function TrimRight(w: string): string {
    if w != [] && IsSpace(w[|w| - 1]) then TrimRight(w[..|w| - 1]) else w
  }

  function TrimLeft(w: string): string {
    if w != [] && IsSpace(w[0]) then TrimLeft(w[1..]) else w
  }

  /** The name a node gets from the text before its brace. */
  function Clean(w: string): string {
    TrimLeft(TrimRight(Star(w)))
  }

  // What trimming leaves.

  predicate IsBlank(c: char) {
    c as int in {9, 10, 11, 12, 13, 32, 160}
  }

  predicate Blank(w: string) {
    forall i :: 0 <= i < |w| ==> IsBlank(w[i])
  }

  /** No blank is left at either end. */
  predicate Trimmed(w: string) {
    w != [] ==> !IsBlank(w[0]) && !IsBlank(w[|w| - 1])
  }

  lemma SpaceIs(c: char)
    ensures IsSpace(c) <==> IsBlank(c)
  {
  }

  /** Only blanks go, from the right, and then from the left. */
  lemma {:induction false} TrimRightIs(w: string)
    ensures var u := TrimRight(w);
            |u| <= |w| && w[..|u|] == u && Blank(w[|u|..]) && (u != [] ==> !IsBlank(u[|u| - 1]))
  {
    if w != [] {
      SpaceIs(w[|w| - 1]);
      if IsSpace(w[|w| - 1]) {
        TrimRightIs(w[..|w| - 1]);
      }
    }
  }

  lemma {:induction false} TrimLeftIs(w: string)
    ensures var u := TrimLeft(w);
            |u| <= |w| && w[|w| - |u|..] == u && Blank(w[..|w| - |u|]) && (u != [] ==> !IsBlank(u[0]))
  {
    if w != [] {
      SpaceIs(w[0]);
      if IsSpace(w[0]) {
        TrimLeftIs(w[1..]);
      }
    }
  }

  /** Where the cleaned name starts in the text. */
  function Lead(w: string): nat {
    |TrimRight(Star(w))| - if |Clean(w)| <= |TrimRight(Star(w))| then |Clean(w)| else 0
  }

  /** Stars count as spaces; nothing but blanks is cut off the ends of a name, and all of them. */
  lemma CleanIs(w: string)
    ensures var k, u := Lead(w), Clean(w);
            k + |u| <= |w| && Star(w)[k..k + |u|] == u && Trimmed(u) &&
            Blank(Star(w)[..k]) && Blank(Star(w)[k + |u|..])
  {
    hide TrimRight, TrimLeft, Star, IsSpace;
    var s := Star(w);
    var r := TrimRight(s);
    TrimRightIs(s);
    TrimLeftIs(r);
    var k, u := Lead(w), Clean(w);
    assert s[..|r|] == r && r[k..] == u;
    assert s[k..k + |u|] == u;
    assert s[..k] == r[..k];
    assert s[k + |u|..] == s[|r|..];
    assert u != [] ==> u[|u| - 1] == r[|r| - 1];
  }

  /** There is only one such piece of a text. */
  lemma TrimmedIsUnique(a: string, u: string, b: string, a': string, u': string, b': string)
    requires a + u + b == a' + u' + b' && Blank(a) && Blank(b) && Blank(a') && Blank(b')
    requires Trimmed(u) && Trimmed(u')
    ensures u == u'
  {
    var s := a + u + b;
    PieceOf(a, u, b);
    PieceOf(a', u', b');
    if u != [] && u' != [] {
      assert |a| == |a'| && |u| == |u'|;
      assert s[|a|..|a| + |u|] == u && s[|a'|..|a'| + |u'|] == u';
    }
  }

  lemma PieceOf(a: string, u: string, b: string)
    requires Blank(a) && Blank(b) && Trimmed(u)
    ensures var s := a + u + b;
            (forall i :: 0 <= i < |s| && (i < |a| || i >= |a| + |u|) ==> IsBlank(s[i])) &&
            (u != [] ==> !IsBlank(s[|a|]) && !IsBlank(s[|a| + |u| - 1]))
  {
  }

  predicate BlankOrStar(w: string) {
    forall i :: 0 <= i < |w| ==> w[i] == '*' || IsBlank(w[i])
  }

  /** A name printed with blanks and stars around it comes back to the letter. */
  lemma CleanUndresses(a: string, w: string, b: string)
    requires BlankOrStar(a) && BlankOrStar(b) && Trimmed(w) && forall i :: 0 <= i < |w| ==> w[i] != '*'
    ensures Clean(a + w + b) == w
  {
    hide Clean, Lead;
    var t := a + w + b;
    CleanIs(t);
    var k, u := Lead(t), Clean(t);
    assert Star(t) == Star(a) + w + Star(b);
    assert Star(t) == Star(t)[..k] + u + Star(t)[k + |u|..];
    TrimmedIsUnique(Star(a), w, Star(b), Star(t)[..k], u, Star(t)[k + |u|..]);
  }

  /** A parsed node; `props` is filled in by the counting pass. */
  datatype Node = Node(name: string, data: string, props: nat, kids: seq<Node>)

  datatype Option<T> = None | Some(value: T)

  /** The outcome of dsi_parser_find_nodes: a node or nothing, where it stopped, and whether
      the text ended inside a node. */
  datatype Found = Found(node: Option<Node>, q: nat, cut: bool)
  datatype Kids = Kids(nodes: seq<Node>, q: nat, cut: bool)

  predicate Text0(s: string) {
    |s| > 0 && s[|s| - 1] == '\0'
  }

  /** strpbrk(.., "{}"), or the end of the text. */
  function Brace(s: string, p: nat): (b: nat)
    requires Text0(s) && p < |s|
    ensures p <= b < |s| && IsStop(s[b])
    decreases |s| - p
  {
    if IsStop(s[p]) then p else Brace(s, p + 1)
  }

  /** Behind the last semicolon of s[p..b], or p. */
  function AfterSemi(s: string, p: nat, b: nat): (k: nat)
    requires p <= b <= |s|
    ensures p <= k <= b
  {
    if b == p || s[b - 1] == ';' then b else AfterSemi(s, p, b - 1)
  }

  /** dsi_parser_find_nodes. */
  function Find(s: string, p: nat): (f: Found)
    requires Text0(s) && p < |s|
    ensures p <= f.q < |s| && (f.node.Some? ==> f.q > p)
    decreases |s| - p, 0
  {
    var b := Brace(s, p);
    if s[b] == '\0' then Found(None, p, false)
    else if s[b] == '}' then Found(None, b + 1, false)
    else
      var name := Clean(s[AfterSemi(s, p, b)..b]);
      var start := b + 1;
      var c := Brace(s, start);
      if s[c] == '\0' then Found(Some(Node(name, s[start..c], 0, [])), start, true)
      else if s[c] == '}' then Found(Some(Node(name, s[start..c], 0, [])), c + 1, false)
      else
        var k := AfterSemi(s, start, c);
        var ks := FindKids(s, if k > start then k + 1 else start);
        Found(Some(Node(name, if k > start then s[start..k] else TrimRight(Star(s[start..c])), 0, FirstOf(ks.nodes))),
              ks.q, ks.cut)
  }

  /** Its loop over the children. */
  function FindKids(s: string, p: nat): (ks: Kids)
    requires Text0(s) && p < |s|
    ensures p <= ks.q < |s|
    decreases |s| - p, 1
  {
    var f := Find(s, p);
    match f.node
    case None => Kids([], f.q, f.cut)
    case Some(n) =>
      var ks := FindKids(s, f.q);
      Kids([n] + ks.nodes, ks.q, f.cut || ks.cut)
  }

  /** No more than 20 children are kept. */
  function FirstOf(ns: seq<Node>): seq<Node> {
    if |ns| <= MAX_NODES then ns else ns[..MAX_NODES]
  }

  /** dsi_parser_count. */
  function Semis(w: string): nat {
    if w == [] then 0 else Semis(w[..|w| - 1]) + if w[|w| - 1] == ';' then 1 else 0
  }

  /** dsi_parser_count_properties: a node with empty data hides its children. */
  function Counted(n: Node): Node {
    if n.data == [] then n else Node(n.name, n.data, Semis(n.data), CountedAll(n.kids))
  }

  function CountedAll(ns: seq<Node>): (r: seq<Node>)
    ensures |r| == |ns|
  {
    if ns == [] then [] else [Counted(ns[0])] + CountedAll(ns[1..])
  }

  // ---------------------------------------------------------------------
  // Printing
  // ---------------------------------------------------------------------

  /** A node with its statements and children; `tail` is text behind the children. */
  datatype Tree = Tree(name: string, stmts: seq<string>, kids: seq<Tree>, tail: string)

  predicate Plain(w: string) {
    forall i :: 0 <= i < |w| ==> !IsStop(w[i]) && w[i] != ';'
  }

  predicate Ok(t: Tree) {
    Plain(t.name) && (forall w :: w in t.stmts ==> Plain(w)) && (forall i :: 0 <= i < |t.kids| ==> Ok(t.kids[i])) &&
    NoStops(t.tail)
  }

  function Stmts(ss: seq<string>): string {
    if ss == [] then [] else Stmts(ss[..|ss| - 1]) + ss[|ss| - 1] + [';']
  }

  /** The name, then in braces the statements, each ended by a semicolon, a space where
      children follow, and the children. */
  function Text(t: Tree): string
    decreases t, 1
  {
    t.name + ['{'] + Stmts(t.stmts) + Inside(t) + ['}']
  }

  function Inside(t: Tree): string
    decreases t, 0
  {
    if t.kids == [] then [] else Gap(t) + (Texts(t.kids) + t.tail)
  }

  function Gap(t: Tree): string {
    if t.stmts == [] then [] else [' ']
  }

  function Texts(ts: seq<Tree>): string
    decreases ts, 2
  {
    if ts == [] then [] else Text(ts[0]) + Texts(ts[1..])
  }

  /** What parsing the printed text yields. */
  function Expected(t: Tree): Node
    decreases t, 1
  {
    Node(Clean(t.name), DataOf(t), 0, FirstOf(ExpectedAll(t.kids)))
  }

  function ExpectedAll(ts: seq<Tree>): (r: seq<Node>)
    ensures |r| == |ts|
    decreases ts, 2
  {
    if ts == [] then [] else [Expected(ts[0])] + ExpectedAll(ts[1..])
  }

  /** The data of a node: its statements.  Without statements it is the name of the first
      child, which the parser does not end before. */
  function DataOf(t: Tree): string {
    if t.kids == [] || t.stmts != [] then Stmts(t.stmts) else TrimRight(Star(t.kids[0].name))
  }

  /** Text w stands at position p of s. */
  predicate Stands(s: string, p: nat, w: string) {
    p + |w| <= |s| && s[p..p + |w|] == w
  }

  lemma StandsApart(s: string, p: nat, u: string, v: string)
    requires Stands(s, p, u + v)
    ensures Stands(s, p, u) && Stands(s, p + |u|, v)
  {
    var w := s[p..p + |u + v|];
    assert w[..|u|] == u && w[|u|..] == v;
  }

  lemma StandsChar(s: string, p: nat, w: string, i: nat)
    requires Stands(s, p, w) && p <= i < p + |w|
    ensures s[i] == w[i - p]
  {
    assert s[i] == s[p..p + |w|][i - p];
  }

  lemma {:induction false} BraceIs(s: string, p: nat, b: nat)
    requires Text0(s) && p <= b < |s| && IsStop(s[b]) && forall i :: p <= i < b ==> !IsStop(s[i])
    ensures Brace(s, p) == b
    decreases b - p
  {
    if p < b {
      BraceIs(s, p + 1, b);
    }
  }

  lemma {:induction false} AfterSemiIs(s: string, p: nat, b: nat, k: nat)
    requires p <= k <= b <= |s| && (k == p || s[k - 1] == ';') && forall i :: k <= i < b ==> s[i] != ';'
    ensures AfterSemi(s, p, b) == k
    decreases b - p
  {
    if k < b {
      AfterSemiIs(s, p, b - 1, k);
    }
  }

  /** Statements contain no stops and end in a semicolon. */
  lemma {:induction false} StmtsPlain(ss: seq<string>)
    requires forall w :: w in ss ==> Plain(w)
    ensures forall i :: 0 <= i < |Stmts(ss)| ==> !IsStop(Stmts(ss)[i])
    ensures ss != [] ==> Stmts(ss) != [] && Stmts(ss)[|Stmts(ss)| - 1] == ';'
  {
    if ss != [] {
      StmtsPlain(ss[..|ss| - 1]);
      assert Plain(ss[|ss| - 1]);
    }
  }

  /** Where the parts of a printed node stand. */
  lemma TextParts(t: Tree, s: string, p: nat)
    requires Stands(s, p, Text(t))
    ensures var start := p + |t.name| + 1;
            var e := start + |Stmts(t.stmts)|;
            |Text(t)| == |t.name| + 1 + |Stmts(t.stmts)| + |Inside(t)| + 1 && e + |Inside(t)| < |s| &&
            Stands(s, p, t.name) && s[p + |t.name|] == '{' && Stands(s, start, Stmts(t.stmts)) &&
            Stands(s, e, Inside(t)) && s[e + |Inside(t)|] == '}'
  {
    var a, st := t.name + ['{'], Stmts(t.stmts);
    StandsApart(s, p, a + st + Inside(t), ['}']);
    StandsApart(s, p, a + st, Inside(t));
    StandsApart(s, p, a, st);
    StandsApart(s, p, t.name, ['{']);
  }

  lemma InsideParts(t: Tree, s: string, e: nat)
    requires t.kids != [] && Stands(s, e, Inside(t))
    ensures Stands(s, e, Gap(t)) && Stands(s, e + |Gap(t)|, Texts(t.kids)) &&
            Stands(s, e + |Gap(t)| + |Texts(t.kids)|, t.tail) &&
            |Inside(t)| == |Gap(t)| + |Texts(t.kids)| + |t.tail|
  {
    StandsApart(s, e, Gap(t), Texts(t.kids) + t.tail);
    StandsApart(s, e + |Gap(t)|, Texts(t.kids), t.tail);
  }

  /** The name of a printed node, up to its brace. */
  lemma NameStands(s: string, p: nat, name: string)
    requires Text0(s) && Stands(s, p, name) && Plain(name) && p + |name| < |s| && s[p + |name|] == '{'
    ensures Brace(s, p) == p + |name| && AfterSemi(s, p, p + |name|) == p && s[p..p + |name|] == name
  {
    PlainStands(s, p, name);
    BraceIs(s, p, p + |name|);
    AfterSemiIs(s, p, p + |name|, p);
  }

  /** Statements, up to the stop behind them. */
  lemma StmtsStand(s: string, start: nat, ss: seq<string>, c: nat)
    requires Text0(s) && Stands(s, start, Stmts(ss)) && forall w :: w in ss ==> Plain(w)
    requires start + |Stmts(ss)| <= c < |s| && (s[c] == '{' || s[c] == '}')
    requires forall i :: start + |Stmts(ss)| <= i < c ==> !IsStop(s[i]) && s[i] != ';'
    ensures var e := start + |Stmts(ss)|;
            Brace(s, start) == c && AfterSemi(s, start, c) == e && s[start..e] == Stmts(ss)
  {
    var e := start + |Stmts(ss)|;
    StmtsPlain(ss);
    forall i | start <= i < c
      ensures !IsStop(s[i])
    {
      if i < e {
        StandsChar(s, start, Stmts(ss), i);
      }
    }
    BraceIs(s, start, c);
    if ss != [] {
      StandsChar(s, start, Stmts(ss), e - 1);
    }
    AfterSemiIs(s, start, c, e);
  }

  lemma FindLeaf(s: string, p: nat, b: nat, c: nat)
    requires Text0(s) && p <= b < c < |s| && Brace(s, p) == b && s[b] == '{' && Brace(s, b + 1) == c && s[c] == '}'
    ensures Find(s, p) == Found(Some(Node(Clean(s[AfterSemi(s, p, b)..b]), s[b + 1..c], 0, [])), c + 1, false)
  {
  }

  lemma FindParent(s: string, p: nat, b: nat, c: nat)
    requires Text0(s) && p <= b < c < |s| && Brace(s, p) == b && s[b] == '{' && Brace(s, b + 1) == c && s[c] == '{'
    ensures var k := AfterSemi(s, b + 1, c);
            var ks := FindKids(s, if k > b + 1 then k + 1 else b + 1);
            var data := if k > b + 1 then s[b + 1..k] else TrimRight(Star(s[b + 1..c]));
            Find(s, p) == Found(Some(Node(Clean(s[AfterSemi(s, p, b)..b]), data, 0, FirstOf(ks.nodes))), ks.q, ks.cut)
  {
  }

  lemma LeafIsShort(t: Tree)
    requires t.kids == []
    ensures Inside(t) == []
  {
  }

  /** A printed node without children. */
  lemma LeafStands(t: Tree, s: string, p: nat)
    requires Text0(s) && Ok(t) && t.kids == [] && Stands(s, p, Text(t)) && p + |Text(t)| < |s|
    ensures Find(s, p) == Found(Some(Node(Clean(t.name), Stmts(t.stmts), 0, [])), p + |Text(t)|, false)
  {
    hide Text, Texts, Stmts, Stands, Find, FindKids, Brace, AfterSemi, Clean, Plain, IsStop, Ok;
    OkParts(t);
    LeafIsShort(t);
    TextParts(t, s, p);
    NameStands(s, p, t.name);
    var start := p + |t.name| + 1;
    var e := start + |Stmts(t.stmts)|;
    StmtsStand(s, start, t.stmts, e);
    FindLeaf(s, p, p + |t.name|, e);
  }

  lemma TextsApart(ts: seq<Tree>, s: string, p: nat)
    requires ts != [] && Stands(s, p, Texts(ts))
    ensures Stands(s, p, Text(ts[0])) && Stands(s, p + |Text(ts[0])|, Texts(ts[1..]))
    ensures |Texts(ts)| == |Text(ts[0])| + |Texts(ts[1..])|
  {
    StandsApart(s, p, Text(ts[0]), Texts(ts[1..]));
  }

  lemma PlainStands(s: string, p: nat, w: string)
    requires Stands(s, p, w) && Plain(w)
    ensures forall i :: p <= i < p + |w| ==> !IsStop(s[i]) && s[i] != ';'
  {
    forall i | p <= i < p + |w|
      ensures !IsStop(s[i]) && s[i] != ';'
    {
      StandsChar(s, p, w, i);
    }
  }

  lemma FirstKidPlain(t: Tree)
    requires Ok(t) && t.kids != []
    ensures Plain(Gap(t)) && Plain(t.kids[0].name)
  {
    assert Ok(t.kids[0]);
  }

  /** The first child of a printed node, up to its brace. */
  lemma FirstKidStands(t: Tree, s: string, e: nat)
    requires Ok(t) && t.kids != [] && Stands(s, e, Inside(t))
    ensures var c := e + |Gap(t)| + |t.kids[0].name|;
            c < |s| && s[c] == '{' && Stands(s, e + |Gap(t)|, t.kids[0].name) &&
            forall i :: e <= i < c ==> !IsStop(s[i]) && s[i] != ';'
  {
    hide Text, Texts, Stmts, Inside, Gap, Stands, Plain, Ok;
    FirstKidPlain(t);
    InsideParts(t, s, e);
    var at := e + |Gap(t)|;
    TextsApart(t.kids, s, at);
    TextParts(t.kids[0], s, at);
    PlainStands(s, e, Gap(t));
    PlainStands(s, at, t.kids[0].name);
  }

  /** The data a printed node with children gets, and where its children are looked for. */
  lemma DataStands(t: Tree, s: string, start: nat, e: nat, c: nat)
    requires Text0(s) && t.kids != [] && (forall w :: w in t.stmts ==> Plain(w)) && e == start + |Stmts(t.stmts)|
    requires c == e + |Gap(t)| + |t.kids[0].name| && c < |s| && s[c] == '{'
    requires Stands(s, start, Stmts(t.stmts)) && Stands(s, e + |Gap(t)|, t.kids[0].name)
    requires forall i :: e <= i < c ==> !IsStop(s[i]) && s[i] != ';'
    ensures Brace(s, start) == c && AfterSemi(s, start, c) == e
    ensures if t.stmts == [] then e == start && s[start..c] == t.kids[0].name
            else e > start && s[start..e] == Stmts(t.stmts)
  {
    StmtsStand(s, start, t.stmts, c);
    if t.stmts == [] {
    } else {
      StmtsPlain(t.stmts);
    }
  }

  /** Where the children of a printed node start. */
  function KidsAt(t: Tree, p: nat): nat {
    p + |t.name| + 1 + |Stmts(t.stmts)| + |Gap(t)|
  }

  lemma OkParts(t: Tree)
    requires Ok(t)
    ensures Plain(t.name) && NoStops(t.tail) && forall w :: w in t.stmts ==> Plain(w)
  {
  }

  /** A printed node with children, up to what is found for these. */
  lemma ParentStands(t: Tree, s: string, p: nat)
    requires Text0(s) && Ok(t) && t.kids != [] && Stands(s, p, Text(t)) && p + |Text(t)| < |s|
    ensures var ks := FindKids(s, KidsAt(t, p));
            Find(s, p) == Found(Some(Node(Clean(t.name), DataOf(t), 0, FirstOf(ks.nodes))), ks.q, ks.cut)
  {
    hide Find, FindKids, FirstOf, Brace, AfterSemi, Clean, TrimRight, Star;
    hide Text, Texts, Stmts, Inside, Stands, IsStop, Text0, Ok, Plain;
    assert Plain(t.name) && (forall w :: w in t.stmts ==> Plain(w)) by {
      OkParts(t);
    }
    TextParts(t, s, p);
    NameStands(s, p, t.name);
    var start := p + |t.name| + 1;
    var e := start + |Stmts(t.stmts)|;
    var c := e + |Gap(t)| + |t.kids[0].name|;
    FirstKidStands(t, s, e);
    DataStands(t, s, start, e, c);
    FindParent(s, p, p + |t.name|, c);
  }

  lemma KidsStand(t: Tree, s: string, p: nat)
    requires t.kids != [] && Stands(s, p, Text(t)) && p + |Text(t)| < |s|
    ensures var at := KidsAt(t, p);
            var end := at + |Texts(t.kids)| + |t.tail|;
            Stands(s, at, Texts(t.kids)) && Stands(s, at + |Texts(t.kids)|, t.tail) &&
            end + 1 == p + |Text(t)| && end + 1 < |s| && s[end] == '}'
  {
    hide Text, Texts, Stmts, Inside, Gap, Stands;
    TextParts(t, s, p);
    InsideParts(t, s, p + |t.name| + 1 + |Stmts(t.stmts)|);
  }

  predicate NoStops(w: string) {
    forall i :: 0 <= i < |w| ==> !IsStop(w[i])
  }

  lemma KidsEnd(s: string, p: nat, tail: string)
    requires Text0(s) && Stands(s, p, tail) && NoStops(tail) && p + |tail| + 1 < |s| && s[p + |tail|] == '}'
    ensures FindKids(s, p) == Kids([], p + |tail| + 1, false)
  {
    forall i | p <= i < p + |tail|
      ensures !IsStop(s[i])
    {
      StandsChar(s, p, tail, i);
    }
    BraceIs(s, p, p + |tail|);
  }

  lemma KidsStep(s: string, p: nat, n: Node, q: nat)
    requires Text0(s) && p < |s| && Find(s, p) == Found(Some(n), q, false)
    ensures var ks := FindKids(s, q); FindKids(s, p) == Kids([n] + ks.nodes, ks.q, ks.cut)
  {
  }

  /** A printed node is parsed to what is expected of it. */
  lemma {:induction false} Printed(t: Tree, s: string, p: nat)
    requires Text0(s) && Ok(t) && Stands(s, p, Text(t)) && p + |Text(t)| < |s|
    ensures Find(s, p) == Found(Some(Expected(t)), p + |Text(t)|, false)
    decreases t, 1
  {
    hide Find, FindKids, Brace, Clean, Text, Texts, Stmts, Inside, Gap, Stands, IsStop, Plain;
    if t.kids == [] {
      LeafStands(t, s, p);
      assert ExpectedAll(t.kids) == [];
    } else {
      ParentStands(t, s, p);
      KidsStand(t, s, p);
      PrintedKids(t.kids, t.tail, s, KidsAt(t, p));
    }
  }

  lemma {:induction false} PrintedKids(ts: seq<Tree>, tail: string, s: string, p: nat)
    requires Text0(s) && (forall i :: 0 <= i < |ts| ==> Ok(ts[i])) && Stands(s, p, Texts(ts))
    requires Stands(s, p + |Texts(ts)|, tail) && NoStops(tail)
    requires p + |Texts(ts)| + |tail| + 1 < |s| && s[p + |Texts(ts)| + |tail|] == '}'
    ensures FindKids(s, p) == Kids(ExpectedAll(ts), p + |Texts(ts)| + |tail| + 1, false)
    decreases ts, 2
  {
    hide Find, FindKids, Text, Brace, Clean, DataOf;
    if ts == [] {
      KidsEnd(s, p, tail);
    } else {
      TextsApart(ts, s, p);
      Printed(ts[0], s, p);
      KidsStep(s, p, Expected(ts[0]), p + |Text(ts[0])|);
      PrintedKids(ts[1..], tail, s, p + |Text(ts[0])|);
    }
  }

  // ---------------------------------------------------------------------
  // Counting
  // ---------------------------------------------------------------------

  /** A node without statements whose first child has a blank name: its data is empty, and
      the counting pass does not look behind it. */
  predicate Blind(t: Tree) {
    t.stmts == [] && t.kids != [] && TrimRight(Star(t.kids[0].name)) == []
  }

  /** What the counting pass leaves of a printed tree: statements are counted below nodes
      that are all not blind. */
  function Tallied(t: Tree, seen: bool): Node
    decreases t, 1
  {
    Node(Clean(t.name), DataOf(t), if seen then |t.stmts| else 0, FirstOf(TalliedAll(t.kids, seen && !Blind(t))))
  }

  function TalliedAll(ts: seq<Tree>, seen: bool): (r: seq<Node>)
    ensures |r| == |ts|
    decreases ts, 2
  {
    if ts == [] then [] else [Tallied(ts[0], seen)] + TalliedAll(ts[1..], seen)
  }

  lemma {:induction false} Unseen(t: Tree)
    ensures Tallied(t, false) == Expected(t)
    decreases t, 1
  {
    UnseenAll(t.kids);
  }

  lemma {:induction false} UnseenAll(ts: seq<Tree>)
    ensures TalliedAll(ts, false) == ExpectedAll(ts)
    decreases ts, 2
  {
    if ts != [] {
      Unseen(ts[0]);
      UnseenAll(ts[1..]);
    }
  }

  lemma {:induction false} SemisConcat(u: string, v: string)
    ensures Semis(u + v) == Semis(u) + Semis(v)
  {
    if v == [] {
      assert u + v == u;
    } else {
      assert (u + v)[..|u + v| - 1] == u + v[..|v| - 1];
      SemisConcat(u, v[..|v| - 1]);
    }
  }

  lemma {:induction false} NoSemis(w: string)
    requires forall i :: 0 <= i < |w| ==> w[i] != ';'
    ensures Semis(w) == 0
  {
    if w != [] {
      NoSemis(w[..|w| - 1]);
    }
  }

  lemma {:induction false} StmtsSemis(ss: seq<string>)
    requires forall w :: w in ss ==> Plain(w)
    ensures Semis(Stmts(ss)) == |ss| && (ss != [] ==> Stmts(ss) != [])
  {
    if ss != [] {
      var front, w := ss[..|ss| - 1], ss[|ss| - 1];
      StmtsSemis(front);
      assert Plain(w);
      NoSemis(w);
      SemisConcat(Stmts(front), w);
      SemisConcat(Stmts(front) + w, [';']);
      assert Semis([';']) == 1 by {
        assert [';'][..0] == [];
      }
    }
  }

  lemma {:induction false} TrimmedNoSemis(w: string)
    requires forall i :: 0 <= i < |w| ==> w[i] != ';'
    ensures Semis(TrimRight(w)) == 0
  {
    if w != [] && IsSpace(w[|w| - 1]) {
      TrimmedNoSemis(w[..|w| - 1]);
    } else {
      NoSemis(w);
    }
  }

  /** The semicolons in the data of a node are its statements. */
  lemma DataSemis(t: Tree)
    requires Ok(t)
    ensures Semis(DataOf(t)) == |t.stmts| || DataOf(t) == []
    ensures DataOf(t) == [] <==> t.stmts == [] && (t.kids == [] || Blind(t))
    ensures DataOf(t) == [] ==> |t.stmts| == 0
  {
    OkParts(t);
    StmtsSemis(t.stmts);
    if t.kids != [] && t.stmts == [] {
      FirstKidPlain(t);
      TrimmedNoSemis(Star(t.kids[0].name));
    }
  }

  lemma {:induction false} CountedPrefix(ns: seq<Node>, m: nat)
    requires m <= |ns|
    ensures CountedAll(ns[..m]) == CountedAll(ns)[..m]
  {
    if m > 0 {
      CountedPrefix(ns[1..], m - 1);
      assert ns[..m][1..] == ns[1..][..m - 1];
    }
  }

  lemma CountedFirst(ns: seq<Node>)
    ensures CountedAll(FirstOf(ns)) == FirstOf(CountedAll(ns))
  {
    if |ns| > MAX_NODES {
      CountedPrefix(ns, MAX_NODES);
    }
  }

  /** Counting the parsed tree. */
  lemma {:induction false} CountsTally(t: Tree)
    requires Ok(t)
    ensures Counted(Expected(t)) == Tallied(t, true)
    decreases t, 1
  {
    DataSemis(t);
    var kids := ExpectedAll(t.kids);
    if DataOf(t) == [] {
      UnseenAll(t.kids);
      assert t.kids == [] ==> TalliedAll(t.kids, true) == [] == kids;
    } else {
      CountsTallyAll(t.kids);
      hide Clean, DataOf, Semis, Blind, Stmts, ExpectedAll, TalliedAll, CountedAll, Ok;
      CountedFirst(kids);
    }
  }

  lemma {:induction false} CountsTallyAll(ts: seq<Tree>)
    requires forall i :: 0 <= i < |ts| ==> Ok(ts[i])
    ensures CountedAll(ExpectedAll(ts)) == TalliedAll(ts, true)
    decreases ts, 2
  {
    if ts != [] {
      CountsTally(ts[0]);
      CountsTallyAll(ts[1..]);
    }
  }

  // ---------------------------------------------------------------------
  // The round trip
  // ---------------------------------------------------------------------

  /** A node that is all of t: its cleaned name, the number of its statements, its children. */
  predicate Complete(n: Node, t: Tree)
    decreases t
  {
    n.name == Clean(t.name) && n.props == |t.stmts| && |n.kids| == |t.kids| &&
    forall i :: 0 <= i < |t.kids| ==> Complete(n.kids[i], t.kids[i])
  }

  /** At most 20 children everywhere. */
  predicate Few(t: Tree) {
    |t.kids| <= 20 && forall i :: 0 <= i < |t.kids| ==> Few(t.kids[i])
  }

  /** No statements anywhere. */
  predicate Silent(t: Tree) {
    t.stmts == [] && forall i :: 0 <= i < |t.kids| ==> Silent(t.kids[i])
  }

  /** No statements below a blind node. */
  predicate Clear(t: Tree) {
    (Blind(t) ==> forall i :: 0 <= i < |t.kids| ==> Silent(t.kids[i])) &&
    forall i :: 0 <= i < |t.kids| ==> Clear(t.kids[i])
  }

  lemma {:induction false} SilentIsClear(t: Tree)
    requires Silent(t)
    ensures Clear(t)
  {
    forall i | 0 <= i < |t.kids|
      ensures Clear(t.kids[i])
    {
      SilentIsClear(t.kids[i]);
    }
  }

  lemma {:induction false} TalliedAt(ts: seq<Tree>, seen: bool, i: nat)
    requires i < |ts|
    ensures TalliedAll(ts, seen)[i] == Tallied(ts[i], seen)
  {
    if i > 0 {
      TalliedAt(ts[1..], seen, i - 1);
    }
  }

  /** The tally is complete exactly for trees with few children per node and no
      statements out of sight. */
  lemma {:induction false} CompleteIff(t: Tree, seen: bool)
    ensures Complete(Tallied(t, seen), t) <==> Few(t) && if seen then Clear(t) else Silent(t)
    decreases t
  {
    var below := seen && !Blind(t);
    forall i | 0 <= i < |t.kids|
      ensures TalliedAll(t.kids, below)[i] == Tallied(t.kids[i], below)
      ensures Complete(Tallied(t.kids[i], below), t.kids[i]) <==>
              Few(t.kids[i]) && if below then Clear(t.kids[i]) else Silent(t.kids[i])
      ensures Silent(t.kids[i]) ==> Clear(t.kids[i])
    {
      TalliedAt(t.kids, below, i);
      CompleteIff(t.kids[i], below);
      if Silent(t.kids[i]) {
        SilentIsClear(t.kids[i]);
      }
    }
    KidsComplete(t, seen);
  }

  lemma KidsComplete(t: Tree, seen: bool)
    ensures var below := seen && !Blind(t);
            Complete(Tallied(t, seen), t) <==>
            (seen || t.stmts == []) && |t.kids| <= 20 &&
            forall i :: 0 <= i < |t.kids| ==> Complete(TalliedAll(t.kids, below)[i], t.kids[i])
  {
  }

  /** Parsing and counting what was printed gives back the tree exactly when no node has
      more than 20 children and no statement is below a blind node; whatever follows the
      text of the tree is left alone. */
  lemma RoundTrip(t: Tree, rest: string)
    requires Ok(t)
    ensures var s := Text(t) + rest + [NUL];
            var f := Find(s, 0);
            f.node.Some? && f.q == |Text(t)| && !f.cut && Counted(f.node.value) == Tallied(t, true) &&
            (Complete(Counted(f.node.value), t) <==> Few(t) && Clear(t))
  {
    var s := Text(t) + rest + [NUL];
    assert Stands(s, 0, Text(t));
    Printed(t, s, 0);
    CountsTally(t);
    CompleteIff(t, true);
  }

  /** A name without stars, and without blanks at its ends. */
  predicate Tidy(w: string) {
    (forall i :: 0 <= i < |w| ==> w[i] != '*') && Trimmed(w)
  }

  /** Cleaning gives back the name exactly if it is tidy. */
  lemma CleanIff(w: string)
    ensures Clean(w) == w <==> Tidy(w)
  {
    hide Clean, Lead;
    CleanIs(w);
    if Tidy(w) {
      CleanUndresses([], w, []);
      assert [] + w + [] == w;
    }
  }

  predicate AllTidy(t: Tree) {
    Tidy(t.name) && forall i :: 0 <= i < |t.kids| ==> AllTidy(t.kids[i])
  }

  /** A node that is all of t, to the letter of its names. */
  predicate Exact(n: Node, t: Tree)
    decreases t
  {
    n.name == t.name && n.props == |t.stmts| && |n.kids| == |t.kids| &&
    forall i :: 0 <= i < |t.kids| ==> Exact(n.kids[i], t.kids[i])
  }

  lemma {:induction false} ExactIff(n: Node, t: Tree)
    requires Complete(n, t)
    ensures Exact(n, t) <==> AllTidy(t)
    decreases t
  {
    hide Clean, Tidy;
    CleanIff(t.name);
    forall i | 0 <= i < |t.kids|
      ensures Exact(n.kids[i], t.kids[i]) <==> AllTidy(t.kids[i])
    {
      ExactIff(n.kids[i], t.kids[i]);
    }
  }

  /** A tree with tidy names comes back to the letter. */
  lemma ExactRoundTrip(t: Tree, rest: string)
    requires Ok(t) && Few(t) && Clear(t)
    ensures var f := Find(Text(t) + rest + [NUL], 0);
            f.node.Some? && (Exact(Counted(f.node.value), t) <==> AllTidy(t))
  {
    hide Find, Text, Counted, Complete, Exact, AllTidy, Few, Clear, Ok;
    RoundTrip(t, rest);
    ExactIff(Counted(Find(Text(t) + rest + [NUL], 0).node.value), t);
  }

  /** A node without statements, and a child with a blank name and a statement. */
  const HIDING: Tree := Tree("a", [], [Tree(" ", ["p"], [], [])], [])

  lemma HidingIsBlind()
    ensures Ok(HIDING) && Few(HIDING) && !Clear(HIDING)
  {
    var kid := HIDING.kids[0];
    assert Ok(kid) && Few(kid) && !Silent(kid);
    assert Star(" ") == " " && TrimRight(" "[..0]) == [];
    assert Blind(HIDING);
  }

  /** The statement is not counted. */
  lemma HiddenStatement()
    ensures var f := Find(Text(HIDING) + [NUL], 0); f.node.Some? && !Complete(Counted(f.node.value), HIDING)
  {
    hide Find, Text, Counted, Complete, Few, Clear, Ok;
    HidingIsBlind();
    RoundTrip(HIDING, []);
    assert Text(HIDING) + [] + [NUL] == Text(HIDING) + [NUL];
  }

  /** The last of 21 children is dropped. */
  lemma DroppedChild(kids: seq<Tree>)
    requires |kids| == 21 && forall i :: 0 <= i < 21 ==> kids[i] == Tree("b", [], [], [])
    ensures var t := Tree("a", ["p"], kids, []);
            Ok(t) && Clear(t) && !Few(t) &&
            var f := Find(Text(t) + [NUL], 0); f.node.Some? && !Complete(Counted(f.node.value), t)
  {
    var t := Tree("a", ["p"], kids, []);
    assert forall i :: 0 <= i < 21 ==> Ok(kids[i]) && Clear(kids[i]);
    assert Ok(t) && Clear(t) && !Few(t);
    hide Find, Text, Counted, Complete, Few, Clear, Ok;
    RoundTrip(t, []);
    assert Text(t) + [] + [NUL] == Text(t) + [NUL];
  }

  /** t is u with blanks and stars around its names, which are tidy. */
  ghost predicate Dresses(t: Tree, u: Tree)
    decreases t
  {
    Tidy(u.name) && (exists a, b :: BlankOrStar(a) && BlankOrStar(b) && t.name == a + u.name + b) &&
    |t.stmts| == |u.stmts| && |t.kids| == |u.kids| && forall i :: 0 <= i < |t.kids| ==> Dresses(t.kids[i], u.kids[i])
  }

  lemma {:induction false} Undressed(n: Node, t: Tree, u: Tree)
    requires Complete(n, t) && Dresses(t, u)
    ensures Exact(n, u)
    decreases t
  {
    hide Clean, Trimmed;
    var a, b :| BlankOrStar(a) && BlankOrStar(b) && t.name == a + u.name + b;
    CleanUndresses(a, u.name, b);
    forall i | 0 <= i < |t.kids|
      ensures Exact(n.kids[i], u.kids[i])
    {
      Undressed(n.kids[i], t.kids[i], u.kids[i]);
    }
  }

  /** However a tree is indented, parsing and counting give it back to the letter. */
  lemma IndentedRoundTrip(t: Tree, u: Tree, rest: string)
    requires Ok(t) && Few(t) && Clear(t) && Dresses(t, u)
    ensures var f := Find(Text(t) + rest + [NUL], 0);
            f.node.Some? && Exact(Counted(f.node.value), u)
  {
    hide Find, Text, Counted, Complete, Exact, Dresses, Few, Clear, Ok;
    RoundTrip(t, rest);
    Undressed(Counted(Find(Text(t) + rest + [NUL], 0).node.value), t, u);
  }

  // ---------------------------------------------------------------------
  // Text that is not a printed tree
  // ---------------------------------------------------------------------

  /** Statements in front of a node, anywhere in a text, are not part of its name. */
  lemma {:induction false} StatementsInFront(lead: string, t: Tree, s: string, p: nat)
    requires Ok(t) && NoStops(lead) && Text0(s) && Stands(s, p, lead + [';'])
    requires Stands(s, p + |lead| + 1, Text(t)) && p + |lead| + 1 + |Text(t)| < |s|
    ensures Find(s, p) == Found(Some(Expected(t)), p + |lead| + 1 + |Text(t)|, false)
  {
    hide Find, Text, Expected, Stmts, Inside, Clean, Ok, AfterSemi, Brace, IsStop, Plain;
    var p' := p + |lead| + 1;
    Printed(t, s, p');
    TextParts(t, s, p');
    OkParts(t);
    NameStands(s, p', t.name);
    InFront(lead, s, p, p', t.name);
    SameStart(s, p, p');
  }

  lemma {:induction false} InFront(lead: string, s: string, p: nat, p': nat, name: string)
    requires Text0(s) && NoStops(lead) && p' == p + |lead| + 1 && p' + |name| < |s| && Stands(s, p, lead + [';'])
    requires Stands(s, p', name) && Plain(name) && s[p' + |name|] == '{'
    ensures Brace(s, p) == p' + |name| && AfterSemi(s, p, p' + |name|) == p'
  {
    var b := p' + |name|;
    forall i | p <= i < b
      ensures !IsStop(s[i]) && (i >= p' ==> s[i] != ';')
    {
      if i < p' {
        StandsChar(s, p, lead + [';'], i);
      } else {
        StandsChar(s, p', name, i);
      }
    }
    StandsChar(s, p, lead + [';'], p' - 1);
    BraceIs(s, p, b);
    AfterSemiIs(s, p, b, p');
  }

  /** Only the brace and the semicolons in front of it decide where a node starts. */
  lemma {:induction false} SameStart(s: string, p: nat, p': nat)
    requires Text0(s) && p <= p' < |s| && Brace(s, p) == Brace(s, p') && s[Brace(s, p)] == '{'
    requires AfterSemi(s, p, Brace(s, p)) == AfterSemi(s, p', Brace(s, p))
    ensures Find(s, p) == Find(s, p')
  {
    hide FindKids, Clean, FirstOf, TrimRight, Star, Brace, AfterSemi;
  }

  /** A brace that is never closed: the rest of the text is the data of the node. */
  lemma Unclosed(name: string, data: string)
    requires Plain(name) && NoStops(data)
    ensures Find(name + ['{'] + data + [NUL], 0) == Found(Some(Node(Clean(name), data, 0, [])), |name| + 1, true)
  {
    var s, b, c := name + ['{'] + data + [NUL], |name|, |name| + 1 + |data|;
    assert s[..b] == name && s[b + 1..c] == data;
    hide Clean;
    assert forall i :: 0 <= i < b ==> s[i] == name[i];
    assert forall i :: b + 1 <= i < c ==> s[i] == data[i - b - 1];
    BraceIs(s, 0, b);
    BraceIs(s, b + 1, c);
    AfterSemiIs(s, 0, b, 0);
  }

  /** Text without braces, or up to a stray closing one, holds no node. */
  lemma Stray(text: string, rest: string)
    requires NoStops(text)
    ensures Find(text + [NUL], 0) == Found(None, 0, false)
    ensures Find(text + ['}'] + rest + [NUL], 0) == Found(None, |text| + 1, false)
  {
    var s, s' := text + [NUL], text + ['}'] + rest + [NUL];
    assert forall i :: 0 <= i < |text| ==> s[i] == text[i] && s'[i] == text[i];
    BraceIs(s, 0, |text|);
    BraceIs(s', 0, |text|);
  }
}
