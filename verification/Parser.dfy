// The panel-description parser: it splits one buffer in place, writing NULs over
// separators, and keeps pointers into it.  Each step is proved against ParseSpec.

module Parser {
  import opened ParseSpec

  /** A node as the parser builds it: where its name and its data start in the buffer. */
  datatype Ref = Ref(name: nat, data: nat, props: nat, kids: seq<Ref>)

  /** The string w, ended by a NUL, starts at p. */
  ghost predicate CStr(m: string, p: nat, w: string) {
    p + |w| < |m| && m[p + |w|] == '\0' && forall i :: p <= i < p + |w| ==> m[i] == w[i - p] && m[i] != '\0'
  }

  /** m' differs from m at most in [lo, hi). */
  ghost predicate Kept(m: string, m': string, lo: nat, hi: nat) {
    |m'| == |m| && forall i :: 0 <= i < |m| && !(lo <= i < hi) ==> m'[i] == m[i]
  }

  /** From p on, the buffer is still the text. */
  ghost predicate Fresh(m: string, s: string, p: nat) {
    |m| == |s| && Text0(s) && forall i :: p <= i < |s| ==> m[i] == s[i]
  }

  lemma {:induction false} BraceFirst(s: string, p: nat)
    requires Text0(s) && p < |s|
    ensures forall i :: p <= i < Brace(s, p) ==> !IsStop(s[i])
    decreases |s| - p
  {
    if !IsStop(s[p]) {
      BraceFirst(s, p + 1);
    }
  }

  /** strpbrk(buf + p, "{}"), or the NUL at the end. */
  method FindBrace(a: array<char>, p: nat, ghost s: string) returns (b: nat)
    requires Fresh(a[..], s, p) && p < a.Length
    ensures b == Brace(s, p)
  {
    b := p;
    while a[b] != '{' && a[b] != '}' && a[b] != '\0'
      invariant p <= b < a.Length && Brace(s, b) == Brace(s, p)
      decreases a.Length - b
    {
      b := b + 1;
    }
  }

  /** strsep(&name, ";") on a string that ends at b: the next piece, if there is one. */
  method NextPiece(a: array<char>, p: nat, b: nat) returns (found: bool, next: nat)
    requires p <= b < a.Length && a[b] == '\0' && forall i :: p <= i < b ==> a[i] != '\0'
    modifies a
    ensures if found then
              p < next <= b && old(a[next - 1]) == ';' && a[next - 1] == '\0' &&
              (forall i :: p <= i < next - 1 ==> old(a[i]) != ';') &&
              forall i :: 0 <= i < a.Length && i != next - 1 ==> a[i] == old(a[i])
            else (forall i :: p <= i < b ==> old(a[i]) != ';') && a[..] == old(a[..])
  {
    next := p;
    while a[next] != ';' && a[next] != '\0'
      invariant p <= next <= b && forall i :: p <= i < next ==> a[i] != ';'
      decreases b - next
    {
      next := next + 1;
    }
    found := a[next] == ';';
    if found {
      a[next] := '\0';
      next := next + 1;
    }
  }

  /** The loop of dsi_parser_clean_name: the last piece. */
  method LastPiece(a: array<char>, p: nat, b: nat, ghost s: string) returns (k: nat)
    requires p <= b < a.Length == |s| && a[b] == '\0' && forall i :: p <= i < b ==> a[i] == s[i] && a[i] != '\0'
    modifies a
    ensures k == AfterSemi(s, p, b) && Kept(old(a[..]), a[..], p, k)
  {
    k := p;
    var found := true;
    while found
      invariant p <= k <= b && (k == p || s[k - 1] == ';') && Kept(old(a[..]), a[..], p, k)
      invariant !found ==> forall i :: k <= i < b ==> s[i] != ';'
      decreases b - k, found
    {
      var next;
      found, next := NextPiece(a, k, b);
      if found {
        k := next;
      }
    }
    AfterSemiIs(s, p, b, k);
  }

  method StrLen(a: array<char>, p: nat, ghost w: string) returns (n: nat)
    requires CStr(a[..], p, w)
    ensures n == |w|
  {
    n := 0;
    while a[p + n] != '\0'
      invariant n <= |w|
      decreases |w| - n
    {
      n := n + 1;
    }
  }

  /** strreplace(.., '*', ' '). */
  method ReplaceStars(a: array<char>, p: nat, ghost w: string)
    requires CStr(a[..], p, w)
    modifies a
    ensures CStr(a[..], p, Star(w)) && Kept(old(a[..]), a[..], p, p + |w|)
  {
    var i := p;
    while a[i] != '\0'
      invariant p <= i <= p + |w| && Kept(old(a[..]), a[..], p, p + |w|)
      invariant forall j :: p <= j < i ==> a[j] == Star(w)[j - p] && a[j] != '\0'
      invariant forall j :: i <= j < p + |w| ==> a[j] == w[j - p] && a[j] != '\0'
      decreases p + |w| - i
    {
      if a[i] == '*' {
        a[i] := ' ';
      }
      i := i + 1;
    }
  }

  /** The first part of strim: the string ends behind its last character that is no space. */
  method CutTail(a: array<char>, p: nat, ghost u: string)
    requires CStr(a[..], p, u)
    modifies a
    ensures CStr(a[..], p, TrimRight(u)) && |TrimRight(u)| <= |u| && Kept(old(a[..]), a[..], p, p + |u|)
  {
    var n := StrLen(a, p, u);
    if n == 0 {
      return;
    }
    assert u[..n] == u;
    while n > 0 && IsSpace(a[p + n - 1])
      invariant 0 <= n <= |u| && TrimRight(u[..n]) == TrimRight(u)
    {
      assert u[..n][..n - 1] == u[..n - 1];
      n := n - 1;
    }
    assert TrimRight(u) == u[..n];
    a[p + n] := '\0';
  }

  method SkipSpaces(a: array<char>, p: nat, ghost u: string) returns (r: nat)
    requires CStr(a[..], p, u)
    ensures p <= r && CStr(a[..], r, TrimLeft(u)) && r + |TrimLeft(u)| == p + |u|
  {
    r := p;
    while IsSpace(a[r])
      invariant p <= r <= p + |u| && TrimLeft(u[r - p..]) == TrimLeft(u)
      decreases p + |u| - r
    {
      assert u[r - p..][1..] == u[r - p + 1..];
      r := r + 1;
    }
    assert TrimLeft(u) == u[r - p..];
  }

  /** u is what is left of w, at place k, without blanks at the ends: nothing but blanks is
      outside it. */
  ghost predicate IsPiece(u: string, w: string, k: nat) {
    k + |u| <= |w| && w[k..k + |u|] == u && Blank(w[..k]) && Blank(w[k + |u|..]) && Trimmed(u)
  }

  /** dsi_parser_strim. */
  method Strim(a: array<char>, p: nat, ghost w: string) returns (r: nat)
    requires CStr(a[..], p, w)
    modifies a
    ensures CStr(a[..], p, TrimRight(Star(w))) && CStr(a[..], r, Clean(w))
    ensures p <= r && IsPiece(Clean(w), Star(w), r - p)
    ensures p <= r && r + |Clean(w)| <= p + |w| && |TrimRight(Star(w))| <= |w| && Kept(old(a[..]), a[..], p, p + |w|)
  {
    ReplaceStars(a, p, w);
    CutTail(a, p, Star(w));
    r := SkipSpaces(a, p, TrimRight(Star(w)));
    CleanIs(w);
    assert r - p == Lead(w);
  }

  /** dsi_parser_clean_name on the text before the brace at b, which strsep has overwritten. */
  method CleanName(a: array<char>, p: nat, b: nat, ghost s: string) returns (r: nat)
    requires p <= b < a.Length == |s| && a[b] == '\0' && forall i :: p <= i < b ==> a[i] == s[i] && a[i] != '\0'
    modifies a
    ensures Kept(old(a[..]), a[..], p, b)
    ensures var w := s[AfterSemi(s, p, b)..b]; CStr(a[..], r, Clean(w)) && p <= r && r + |Clean(w)| <= b
    ensures var k := AfterSemi(s, p, b); k <= r && IsPiece(Clean(s[k..b]), Star(s[k..b]), r - k)
    ensures AfterSemi(s, p, b) == p ==> CStr(a[..], p, TrimRight(Star(s[p..b]))) && |TrimRight(Star(s[p..b]))| <= b - p
  {
    hide Clean, Star, TrimRight, IsPiece, AfterSemi;
    var k := LastPiece(a, p, b, s);
    r := Strim(a, k, s[k..b]);
  }

  /** dsi_parser_get_blob: the data of a node starts at `start`; `q` is where its children,
      or what follows the node, start. */
  method GetBlob(a: array<char>, start: nat, ghost s: string) returns (hasChild: bool, q: nat)
    requires Fresh(a[..], s, start) && start < a.Length
    modifies a
    ensures var c := Brace(s, start);
            hasChild == (s[c] == '{') &&
            if s[c] == '\0' then q == start && a[..] == old(a[..])
            else if s[c] == '}' then q == c + 1 && a[..] == old(a[..])[c := '\0']
            else
              var k := AfterSemi(s, start, c);
              if k > start then q == k + 1 && a[..] == old(a[..])[k := '\0'] else q == start && a[..] == old(a[..])
  {
    var c := FindBrace(a, start, s);
    hasChild, q := false, start;
    if a[c] == '\0' {
      return;
    }
    if a[c] == '{' {
      hasChild := true;
    }
    if hasChild {
      var d := c;
      while d != start
        invariant start <= d <= c && AfterSemi(s, start, d) == AfterSemi(s, start, c)
      {
        d := d - 1;
        if a[d] == ';' {
          d := d + 1;
          a[d] := '\0';
          return true, d + 1;
        }
      }
    } else {
      a[c] := '\0';
      q := c + 1;
    }
  }

  // ---------------------------------------------------------------------
  // Nodes
  // ---------------------------------------------------------------------

  /** r stands for n, with all its strings in [lo, hi). */
  ghost predicate Shows(m: string, r: Ref, n: Node, lo: nat, hi: nat)
    decreases n
  {
    hi <= |m| && lo <= r.name && r.name + |n.name| < hi && CStr(m, r.name, n.name) &&
    lo <= r.data && r.data + |n.data| < hi && CStr(m, r.data, n.data) &&
    r.props == n.props && |r.kids| == |n.kids| &&
    forall i :: 0 <= i < |n.kids| ==> Shows(m, r.kids[i], n.kids[i], lo, hi)
  }

  /** A change outside a node's range, or a wider range, does not matter. */
  lemma {:induction false} ShowsStill(m: string, m': string, r: Ref, n: Node, lo: nat, hi: nat, lo': nat, hi': nat)
    requires Shows(m, r, n, lo, hi) && |m'| == |m| && lo' <= lo && hi <= hi' <= |m|
    requires forall i :: lo <= i < hi ==> m'[i] == m[i]
    ensures Shows(m', r, n, lo', hi')
    decreases n
  {
    forall i | 0 <= i < |n.kids|
      ensures Shows(m', r.kids[i], n.kids[i], lo', hi')
    {
      ShowsStill(m, m', r.kids[i], n.kids[i], lo, hi, lo', hi');
    }
  }

  /** When the text has ended inside a node, no brace is left. */
  lemma {:induction false} CutEnds(s: string, p: nat)
    requires Text0(s) && p < |s|
    ensures Find(s, p).cut ==> s[Brace(s, Find(s, p).q)] == '\0'
    decreases |s| - p, 0
  {
    if s[Brace(s, p)] == '{' {
      FindIsBody(s, p);
      CutEndsBody(s, Brace(s, p) + 1);
    } else {
      FindNothing(s, p);
    }
  }

  lemma {:induction false} CutEndsBody(s: string, start: nat)
    requires Text0(s) && start < |s|
    ensures Body(s, start).cut ==> s[Brace(s, Body(s, start).q)] == '\0'
    decreases |s| - start, 2
  {
    hide Find, FindKids, AfterSemi, TrimRight, Star, FirstOf;
    var c := Brace(s, start);
    if s[c] == '{' {
      var k := AfterSemi(s, start, c);
      CutEndsKids(s, if k > start then k + 1 else start);
    }
  }

  lemma {:induction false} CutEndsKids(s: string, p: nat)
    requires Text0(s) && p < |s|
    ensures FindKids(s, p).cut ==> s[Brace(s, FindKids(s, p).q)] == '\0'
    decreases |s| - p, 1
  {
    CutEnds(s, p);
    var f := Find(s, p);
    if f.node.Some? {
      CutEndsKids(s, f.q);
      assert f.cut ==> Find(s, f.q) == Found(None, f.q, false);
    }
  }

  /** What stands behind the brace of a node. */
  datatype Inner = Inner(data: string, kids: seq<Node>, q: nat, cut: bool)

  function Body(s: string, start: nat): (i: Inner)
    requires Text0(s) && start < |s|
    ensures start <= i.q < |s|
  {
    var c := Brace(s, start);
    if s[c] == '\0' then Inner(s[start..c], [], start, true)
    else if s[c] == '}' then Inner(s[start..c], [], c + 1, false)
    else
      var k := AfterSemi(s, start, c);
      var ks := FindKids(s, if k > start then k + 1 else start);
      Inner(if k > start then s[start..k] else TrimRight(Star(s[start..c])), FirstOf(ks.nodes), ks.q, ks.cut)
  }

  lemma FindIsBody(s: string, p: nat)
    requires Text0(s) && p < |s| && s[Brace(s, p)] == '{'
    ensures var b := Brace(s, p);
            var i := Body(s, b + 1);
            Find(s, p) == Found(Some(Node(Clean(s[AfterSemi(s, p, b)..b]), i.data, 0, i.kids)), i.q, i.cut)
  {
  }

  /** The text up to the first brace, without semicolons, has become a trimmed string. */
  ghost predicate Aliased(m: string, s: string, p: nat)
    requires Text0(s) && p < |s|
  {
    var b := Brace(s, p);
    AfterSemi(s, p, b) == p ==>
      var w := TrimRight(Star(s[p..b]));
      |w| <= b - p && CStr(m, p, w)
  }

  lemma CStrStill(m: string, m': string, p: nat, w: string)
    requires CStr(m, p, w) && |m'| == |m| && forall i :: p <= i <= p + |w| ==> m'[i] == m[i]
    ensures CStr(m', p, w)
  {
  }

  /** Where the strings of a node end. */
  function End(s: string, q: nat, cut: bool): nat {
    if cut then |s| else q
  }

  ghost predicate AllShow(m: string, rs: seq<Ref>, ns: seq<Node>, lo: nat, hi: nat) {
    |rs| == |ns| && forall i :: 0 <= i < |ns| ==> Shows(m, rs[i], ns[i], lo, hi)
  }

  lemma AllShowStill(m: string, m': string, rs: seq<Ref>, ns: seq<Node>, lo: nat, hi: nat, lo': nat, hi': nat)
    requires AllShow(m, rs, ns, lo, hi) && |m'| == |m| && lo' <= lo && hi <= hi' <= |m|
    requires forall i :: lo <= i < hi ==> m'[i] == m[i]
    ensures AllShow(m', rs, ns, lo', hi')
  {
    forall i | 0 <= i < |ns|
      ensures Shows(m', rs[i], ns[i], lo', hi')
    {
      ShowsStill(m, m', rs[i], ns[i], lo, hi, lo', hi');
    }
  }

  lemma FindNothing(s: string, p: nat)
    requires Text0(s) && p < |s|
    ensures IsStop(s[Brace(s, p)])
    ensures s[Brace(s, p)] == '\0' ==> Find(s, p) == Found(None, p, false)
    ensures s[Brace(s, p)] == '}' ==> Find(s, p) == Found(None, Brace(s, p) + 1, false)
  {
  }

  /** strsep(buf, "{"), and the name. */
  method NameNode(a: array<char>, p: nat, b: nat, ghost s: string) returns (name: nat)
    requires Fresh(a[..], s, p) && p < a.Length && b == Brace(s, p) && s[b] == '{'
    modifies a
    ensures Kept(old(a[..]), a[..], p, b + 1) && Aliased(a[..], s, p)
    ensures var w := Clean(s[AfterSemi(s, p, b)..b]); CStr(a[..], name, w) && p <= name && name + |w| <= b
  {
    BraceFirst(s, p);
    a[b] := '\0';
    name := CleanName(a, p, b, s);
  }

  /** A node is complete when its children are: these leave its name alone. */
  lemma NodeShows(m: string, m': string, s: string, p: nat, r: Ref, i: Inner)
    requires Text0(s) && p < |s| && |m| == |m'| == |s| && r.data == Brace(s, p) + 1 && r.props == 0
    requires forall j :: 0 <= j <= Brace(s, p) ==> m'[j] == m[j]
    requires var w := Clean(s[AfterSemi(s, p, Brace(s, p))..Brace(s, p)]);
             CStr(m, r.name, w) && p <= r.name && r.name + |w| <= Brace(s, p)
    requires Aliased(m, s, p) && i.q <= |s| && AllShow(m', r.kids, i.kids, r.data, End(s, i.q, i.cut))
    requires CStr(m', r.data, i.data) && r.data + |i.data| < End(s, i.q, i.cut)
    ensures var name := Clean(s[AfterSemi(s, p, Brace(s, p))..Brace(s, p)]);
            Shows(m', r, Node(name, i.data, 0, i.kids), p, End(s, i.q, i.cut))
    ensures Aliased(m', s, p)
  {
    hide Clean, TrimRight, Star, AfterSemi, IsStop;
    var b := Brace(s, p);
    CStrStill(m, m', r.name, Clean(s[AfterSemi(s, p, b)..b]));
    AllShowStill(m', m', r.kids, i.kids, r.data, End(s, i.q, i.cut), p, End(s, i.q, i.cut));
    if AfterSemi(s, p, b) == p {
      CStrStill(m, m', p, TrimRight(Star(s[p..b])));
    }
  }

  /** dsi_parser_find_nodes. */
  method FindNodes(a: array<char>, p: nat, ghost s: string) returns (node: Option<Ref>, q: nat)
    requires Fresh(a[..], s, p) && p < a.Length
    modifies a
    ensures var f := Find(s, p);
            q == f.q && (node.Some? <==> f.node.Some?) && Kept(old(a[..]), a[..], p, q) &&
            (node.Some? ==> Shows(a[..], node.value, f.node.value, p, End(s, q, f.cut)) &&
                            Aliased(a[..], s, p) && Brace(s, p) < q)
    decreases |s| - p, 0
  {
    hide Find, FindKids, Body, AfterSemi, Clean, TrimRight, Star, Shows, AllShow, CStr, Brace, IsStop;
    FindNothing(s, p);
    var b := FindBrace(a, p, s);
    if a[b] == '\0' {
      return None, p;
    }
    if a[b] == '}' {
      return None, b + 1;
    }
    FindIsBody(s, p);
    var name := NameNode(a, p, b, s);
    ghost var m := a[..];
    var kids;
    kids, q := FindBody(a, b + 1, s);
    node := Some(Ref(name, b + 1, 0, kids));
    NodeShows(m, a[..], s, p, node.value, Body(s, b + 1));
  }

  /** The data and the children of a node. */
  method FindBody(a: array<char>, start: nat, ghost s: string) returns (kids: seq<Ref>, q: nat)
    requires Fresh(a[..], s, start) && start < a.Length
    modifies a
    ensures var i := Body(s, start);
            q == i.q && start <= q && Kept(old(a[..]), a[..], start, q) &&
            AllShow(a[..], kids, i.kids, start, End(s, q, i.cut)) &&
            CStr(a[..], start, i.data) && start + |i.data| < End(s, q, i.cut)
    decreases |s| - start, 2
  {
    hide Find, FindKids, AfterSemi, TrimRight, Star, Shows, Brace, FirstOf;
    ghost var c := Brace(s, start);
    BraceFirst(s, start);
    var hasChild;
    hasChild, q := GetBlob(a, start, s);
    kids := [];
    if hasChild {
      ghost var m, k, q0 := a[..], AfterSemi(s, start, c), q;
      kids, q := FindAllKids(a, q, s);
      ghost var ks := FindKids(s, q0);
      AllShowStill(a[..], a[..], kids, FirstOf(ks.nodes), q0, End(s, q, ks.cut), start, End(s, q, ks.cut));
      if k > start {
        CStrStill(m, a[..], start, s[start..k]);
      }
    }
  }

  /** The children found so far, and that the loop goes on where they end. */
  ghost predicate Progress(s: string, q0: nat, q: nat, got: seq<Node>, cut: bool, more: bool)
    requires Text0(s) && q0 < |s| && q < |s|
  {
    if more then
      var ks := FindKids(s, q);
      FindKids(s, q0) == Kids(got + ks.nodes, ks.q, cut || ks.cut) && (cut ==> s[Brace(s, q)] == '\0')
    else FindKids(s, q0) == Kids(got, q, cut)
  }

  lemma ProgressStart(s: string, q0: nat)
    requires Text0(s) && q0 < |s|
    ensures Progress(s, q0, q0, [], false, true) && FirstOf([]) == []
  {
    assert [] + FindKids(s, q0).nodes == FindKids(s, q0).nodes;
  }

  lemma ProgressDone(s: string, q0: nat, q: nat, got: seq<Node>, cut: bool)
    requires Text0(s) && q0 < |s| && q < |s| && Progress(s, q0, q, got, cut, false)
    ensures FindKids(s, q0) == Kids(got, q, cut) && (s[Brace(s, q0)] == '{' ==> got != [])
  {
  }

  lemma ProgressStep(s: string, q0: nat, q: nat, got: seq<Node>, cut: bool)
    requires Text0(s) && q0 < |s| && q < |s| && Progress(s, q0, q, got, cut, true)
    ensures var f := Find(s, q);
            if f.node.Some? then !cut && Progress(s, q0, f.q, got + [f.node.value], f.cut, true)
            else !f.cut && Progress(s, q0, f.q, got, cut, false) && (cut ==> f.q == q)
  {
    var f := Find(s, q);
    CutEnds(s, q);
    if f.node.Some? {
      assert got + ([f.node.value] + FindKids(s, f.q).nodes) == got + [f.node.value] + FindKids(s, f.q).nodes;
    } else {
      assert got + [] == got;
    }
  }

  lemma KidsStay(m: string, m': string, s: string, kids: seq<Ref>, got: seq<Node>,
                 q0: nat, q1: nat, q: nat, cut: bool, cut': bool)
    requires AllShow(m, kids, FirstOf(got), q0, End(s, q1, cut)) && |m| == |s| && q0 <= q1 <= q <= |s|
    requires Kept(m, m', q1, q) && (cut ==> q == q1 && cut')
    ensures AllShow(m', kids, FirstOf(got), q0, End(s, q, cut'))
  {
    AllShowStill(m, m', kids, FirstOf(got), q0, End(s, q1, cut), q0, End(s, q, cut'));
  }

  lemma AliasStays(m: string, m': string, s: string, q0: nat, q1: nat, q: nat, has: bool)
    requires Text0(s) && q0 < |s| && q0 <= q1 <= q && Kept(m, m', q1, q)
    requires has ==> Brace(s, q0) < q1 && Aliased(m, s, q0)
    ensures has ==> Aliased(m', s, q0)
  {
    hide TrimRight, Star, AfterSemi;
    var b := Brace(s, q0);
    if has && AfterSemi(s, q0, b) == q0 {
      CStrStill(m, m', q0, TrimRight(Star(s[q0..b])));
    }
  }

  lemma MoreKids(m: string, kids: seq<Ref>, got: seq<Node>, r: Ref, n: Node, lo: nat, lo': nat, hi: nat)
    requires AllShow(m, kids, FirstOf(got), lo, hi) && Shows(m, r, n, lo', hi) && lo <= lo'
    ensures AllShow(m, if |kids| < MAX_NODES then kids + [r] else kids, FirstOf(got + [n]), lo, hi)
  {
    hide CStr;
    ShowsStill(m, m, r, n, lo', hi, lo, hi);
    if |got| < MAX_NODES {
      assert FirstOf(got + [n]) == FirstOf(got) + [n];
    } else {
      assert FirstOf(got + [n]) == FirstOf(got);
    }
  }

  /** The loop over the children.  A first child is always found, and its name is where the
      data of its parent starts. */
  method FindAllKids(a: array<char>, q0: nat, ghost s: string) returns (kids: seq<Ref>, q: nat)
    requires Fresh(a[..], s, q0) && q0 < a.Length
    modifies a
    ensures var ks := FindKids(s, q0);
            q == ks.q && q0 <= q && Kept(old(a[..]), a[..], q0, q) &&
            AllShow(a[..], kids, FirstOf(ks.nodes), q0, End(s, q, ks.cut)) &&
            (s[Brace(s, q0)] == '{' ==> Aliased(a[..], s, q0) && Brace(s, q0) < q)
    decreases |s| - q0, 1
  {
    hide Find, FindKids, AfterSemi, TrimRight, Star, Shows, Brace, Progress, Aliased, FirstOf;
    ProgressStart(s, q0);
    kids, q := [], q0;
    var more := true;
    ghost var got, cut := [], false;
    while more
      invariant q0 <= q < |s| && Kept(old(a[..]), a[..], q0, q) && Progress(s, q0, q, got, cut, more)
      invariant AllShow(a[..], kids, FirstOf(got), q0, End(s, q, cut))
      invariant got != [] ==> Brace(s, q0) < q && Aliased(a[..], s, q0)
      invariant got == [] ==> q == q0 || !more
      decreases |s| - q, more
    {
      ghost var m, q1, f := a[..], q, Find(s, q);
      var node;
      node, q := FindNodes(a, q, s);
      ProgressStep(s, q0, q1, got, cut);
      KidsStay(m, a[..], s, kids, got, q0, q1, q, cut, cut || f.cut);
      AliasStays(m, a[..], s, q0, q1, q, got != []);
      more := node.Some?;
      if more {
        MoreKids(a[..], kids, got, node.value, f.node.value, q0, q1, End(s, q, f.cut));
        if |kids| < MAX_NODES {
          kids := kids + [node.value];
        }
        got, cut := got + [f.node.value], f.cut;
      }
    }
    ProgressDone(s, q0, q, got, cut);
  }

  // ---------------------------------------------------------------------
  // Counting
  // ---------------------------------------------------------------------

  /** dsi_parser_count for semicolons. */
  method CountSemis(a: array<char>, p: nat, ghost w: string) returns (count: nat)
    requires CStr(a[..], p, w)
    ensures count == Semis(w)
  {
    count := 0;
    var q, more := p, true;
    assert w[..0] == [];
    while more
      invariant p <= q <= p + |w| && count == Semis(w[..q - p]) && (more || q == p + |w|)
      decreases p + |w| - q, more
    {
      while a[q] != ';' && a[q] != '\0'
        invariant p <= q <= p + |w| && count == Semis(w[..q - p])
        decreases p + |w| - q
      {
        assert w[..q - p + 1][..q - p] == w[..q - p];
        q := q + 1;
      }
      more := a[q] == ';';
      if more {
        assert w[..q - p + 1][..q - p] == w[..q - p];
        count, q := count + 1, q + 1;
      }
    }
    assert w[..q - p] == w;
  }

  lemma {:induction false} CountedAt(ns: seq<Node>, i: nat)
    requires i < |ns|
    ensures CountedAll(ns)[i] == Counted(ns[i])
  {
    if i > 0 {
      CountedAt(ns[1..], i - 1);
    }
  }

  /** dsi_parser_count_properties. */
  method CountProperties(a: array<char>, r: Ref, ghost n: Node, ghost lo: nat, ghost hi: nat) returns (r': Ref)
    requires Shows(a[..], r, n, lo, hi)
    ensures Shows(a[..], r', Counted(n), lo, hi)
    decreases n
  {
    var len := StrLen(a, r.data, n.data);
    if len == 0 {
      return r;
    }
    var count := CountSemis(a, r.data, n.data);
    var kids, i := [], 0;
    while i < |r.kids|
      invariant 0 <= i <= |r.kids| && |kids| == i
      invariant forall j :: 0 <= j < i ==> Shows(a[..], kids[j], CountedAll(n.kids)[j], lo, hi)
    {
      var kid := CountProperties(a, r.kids[i], n.kids[i], lo, hi);
      CountedAt(n.kids, i);
      kids, i := kids + [kid], i + 1;
    }
    r' := Ref(r.name, r.data, count, kids);
  }

  /** Parsing and counting a printed tree, with anything behind it. */
  method ParsePrinted(a: array<char>, ghost t: Tree, ghost rest: string) returns (r: Ref, q: nat)
    requires Ok(t) && a[..] == Text(t) + rest + [NUL]
    modifies a
    ensures q == |Text(t)| && Shows(a[..], r, Tallied(t, true), 0, q)
    ensures forall i :: q <= i < a.Length ==> a[i] == old(a[i])
  {
    hide Find, Text, Tallied, Counted, Shows, Complete, Clear, Few, Ok;
    ghost var s := a[..];
    RoundTrip(t, rest);
    var node;
    node, q := FindNodes(a, 0, s);
    r := CountProperties(a, node.value, Find(s, 0).node.value, 0, q);
  }
}
