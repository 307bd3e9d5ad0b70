/**
  The table the parser runs on, built link by link as `__init_parse_root` does, and the proof
  that it is the automaton of `HttpGrammar`.  A node is an index into the arena; each node is
  labelled, for the proof only, with the node of the automaton it stands for.
*/
module HttpEngine {

  import opened Lists
  import opened HttpGrammar
  import opened HttpKeywords

  type Byte = c: char | c as int < 256

  /** The edge, in the automaton's terms, that a table cell stands for. */
  function Cell(names: seq<Node>, to: nat, save: int): Edge { Edge(if to < |names| then names[to] else Err, save) }

  /** The letters of a keyword prefix, but for the last. */
  function Front(q: string): string
    requires q != []
  {
    q[..|q| - 1]
  }

  function Last(q: string): char
    requires q != []
  {
    q[|q| - 1]
  }

  /** The node is `n` or inside a keyword that begins there, and the letters read since. */
  predicate Under(n: Node, x: Node) { x == n || (x.Pre? && x.from == n && x.p != []) }

  function Path(n: Node, x: Node): string { if x == n || !x.Pre? then [] else x.p }

  /** Reading `c` at `x` spells one of the first `i` letters of `w` after node `n`. */
  predicate OnWord(n: Node, w: string, i: nat, x: Node, c: char)
  {
    var p := Path(n, x);
    Under(n, x) && |p| < i && |p| < |w| && p == w[..|p|] && c == w[|p|]
  }

  /** What adding the first `i` letters of a keyword makes of an edge that was `was`. */
  function Grown(n: Node, k: Keyword, i: nat, x: Node, c: char, was: Edge): Edge
  {
    if OnWord(n, k.word, i, x, c) && was.to == Err then
      var q := Path(n, x) + [c];
      Edge(if |q| == |k.word| then k.end else Pre(n, q), k.save)
    else was
  }

  lemma PathOf(n: Node, w: string, i: nat, x: Node)
    requires !n.Pre? && i <= |w| && Under(n, x)
    ensures x == At(n, w[..i]) <==> Path(n, x) == w[..i]
  {
  }

  lemma GrownHere(n: Node, k: Keyword, i: nat, x: Node, was: Edge)
    requires !n.Pre? && i < |k.word| && x == At(n, k.word[..i])
    ensures Grown(n, k, i, x, k.word[i], was) == was
  {
    PathOf(n, k.word, i, x);
  }

  lemma OnWordElse(n: Node, w: string, i: nat, x: Node, c: char)
    requires !(Under(n, x) && |Path(n, x)| == i)
    ensures OnWord(n, w, i + 1, x, c) <==> OnWord(n, w, i, x, c)
  {
  }

  lemma AtUnder(n: Node, w: string, i: nat)
    requires !n.Pre? && i <= |w|
    ensures Under(n, At(n, w[..i])) && Path(n, At(n, w[..i])) == w[..i]
  {
  }

  lemma OnWordHere(n: Node, w: string, i: nat, x: Node, c: char)
    requires !n.Pre? && Under(n, x) && |Path(n, x)| == i < |w|
    ensures OnWord(n, w, i + 1, x, c) <==> x == At(n, w[..i]) && c == w[i]
    ensures !OnWord(n, w, i, x, c)
  {
    PathOf(n, w, i, x);
  }

  /** The node reached by the first `i` letters, and the next letter. */
  predicate Tip(n: Node, w: string, i: nat, x: Node, c: char) { i < |w| && x == At(n, w[..i]) && c == w[i] }

  lemma OnTip(n: Node, w: string, i: nat, x: Node, c: char)
    requires !n.Pre? && Tip(n, w, i, x, c)
    ensures OnWord(n, w, i + 1, x, c) && !OnWord(n, w, i, x, c) && Path(n, x) == w[..i]
  {
    AtUnder(n, w, i);
  }

  lemma OffTip(n: Node, w: string, i: nat, x: Node, c: char)
    requires !n.Pre? && i < |w| && !Tip(n, w, i, x, c)
    ensures OnWord(n, w, i + 1, x, c) <==> OnWord(n, w, i, x, c)
  {
    if Under(n, x) && |Path(n, x)| == i { OnWordHere(n, w, i, x, c); } else { OnWordElse(n, w, i, x, c); }
  }

  lemma GrownTip(n: Node, k: Keyword, i: nat, x: Node, c: char, was: Edge)
    requires !n.Pre? && Tip(n, k.word, i, x, c) && was.to == Err
    ensures Grown(n, k, i + 1, x, c, was) == Edge(if i + 1 == |k.word| then k.end else Pre(n, k.word[..i] + [c]), k.save)
  {
    OnTip(n, k.word, i, x, c);
  }

  lemma GrownElse(n: Node, k: Keyword, i: nat, x: Node, c: char, was: Edge)
    requires !n.Pre? && i < |k.word| && !(Tip(n, k.word, i, x, c) && was.to == Err)
    ensures Grown(n, k, i + 1, x, c, was) == Grown(n, k, i, x, c, was)
  {
    if was.to == Err { OffTip(n, k.word, i, x, c); }
  }

  // ---- a whole keyword

  lemma OnWordAll(n: Node, w: string, x: Node, c: char)
    requires Under(n, x)
    ensures OnWord(n, w, |w|, x, c) <==> Path(n, x) + [c] <= w
  {
    var p := Path(n, x);
    if p + [c] <= w { assert (p + [c])[|p|] == c && (p + [c])[..|p|] == p; }
  }

  lemma EndsOf(n: Node)
    ensures Ends(Keywords(n))
  {
  }

  /** Growing an edge by the whole keyword is spelling with one keyword more. */
  lemma GrownIsSpelt(n: Node, ks: seq<Keyword>, k: Keyword, x: Node, c: char)
    requires !n.Pre? && Under(n, x) && Ends(ks) && k.word != []
    ensures var q := Path(n, x) + [c]; Grown(n, k, |k.word|, x, c, Spell(n, ks, q)) == Spell(n, ks + [k], q)
  {
    var q := Path(n, x) + [c];
    OnWordAll(n, k.word, x, c);
    SpellSnoc(n, ks, k, q);
    SpeltIsAlive(n, ks, q);
    if !Spelt(ks, q) {
      NotSpelt(n, ks, q);
      assert [k][1..] == [];
    }
  }

  lemma KeywordGraph(n: Node, k: nat)
    requires Speller(n) && k < |Keywords(n)|
    ensures Keywords(n)[k].word != [] && forall i :: 0 <= i < |Keywords(n)[k].word| ==> Letter(Keywords(n)[k].word[i])
  {
  }

  predicate Letter(c: char) { c as int < 256 && !Blank(c) }

  // ---------------------------------------------------------------- the construction as a list of steps

  /** The sets of characters that are linked together. */
  datatype Class = One(c: char) | Blanks | LineEnds | Graphs | Nums

  predicate Has(k: Class, c: char)
  {
    match k
    case One(d) => c == d
    case Blanks => Blank(c)
    case LineEnds => c == '\r' || c == '\n'
    case Graphs => Graph(c)
    case Nums => Digit(c)
  }

  /** One `link` for a set of characters, or one `create_list`. */
  datatype Instr = Put(at: Node, cs: Class, to: Node, save: int) | Kw(at: Node, k: Keyword)

  function Effect(i: Instr, x: Node, c: char, was: Edge): Edge
  {
    match i
    case Put(at, cs, to, save) => if x == at && Has(cs, c) then Edge(to, save) else was
    case Kw(at, k) => Grown(at, k, |k.word|, x, c, was)
  }

  /** The edge at a node after all steps. */
  function Run(prog: seq<Instr>, x: Node, c: char): Edge
  {
    if prog == [] then DEAD else Effect(prog[|prog| - 1], x, c, Run(prog[..|prog| - 1], x, c))
  }

  function WordsOf(prog: seq<Instr>, n: Node): seq<Keyword>
  {
    if prog == [] then []
    else
      var i := prog[|prog| - 1];
      WordsOf(prog[..|prog| - 1], n) + if i.Kw? && i.at == n then [i.k] else []
  }

  predicate Decent(i: Instr)
  {
    match i
    case Put(at, cs, to, _) => !at.Pre? && !at.Root? && !to.Pre? && (Speller(at) ==> cs.Blanks?)
    case Kw(at, k) => Speller(at) && k in Keywords(at)
  }

  predicate Tame(prog: seq<Instr>) { forall j :: 0 <= j < |prog| ==> Decent(prog[j]) }

  lemma {:induction false} WordsEnd(prog: seq<Instr>, n: Node)
    requires Tame(prog)
    ensures Ends(WordsOf(prog, n))
    decreases |prog|
  {
    if prog != [] {
      assert Decent(prog[|prog| - 1]);
      WordsEnd(prog[..|prog| - 1], n);
      EndsOf(n);
    }
  }

  lemma NotUnder(m: Node, n: Node, x: Node)
    requires Speller(m) && Speller(n) && m != n && Under(n, x)
    ensures !Under(m, x)
  {
  }

  /** Inside and at the start of keywords, the steps spell. */
  lemma {:induction false} RunSpells(prog: seq<Instr>, n: Node, x: Node, c: char)
    requires Tame(prog) && Speller(n) && Under(n, x) && (x == n ==> !Blank(c) || n.Root?)
    ensures Run(prog, x, c) == Spell(n, WordsOf(prog, n), Path(n, x) + [c])
    decreases |prog|
  {
    if prog != [] {
      var i, rest := prog[|prog| - 1], prog[..|prog| - 1];
      assert Decent(i);
      RunSpells(rest, n, x, c);
      if i.Kw? && i.at == n {
        WordsEnd(rest, n);
        EndsOf(n);
        GrownIsSpelt(n, WordsOf(rest, n), i.k, x, c);
      } else {
        assert WordsOf(prog, n) == WordsOf(rest, n);
        if i.Kw? { NotUnder(i.at, n, x); }
      }
    }
  }

  lemma KeywordsLetter(n: Node, k: Keyword)
    requires Speller(n) && k in Keywords(n)
    ensures k.word != [] && forall i :: 0 <= i < |k.word| ==> Letter(k.word[i])
  {
    var j :| 0 <= j < |Keywords(n)| && Keywords(n)[j] == k;
    KeywordGraph(n, j);
  }

  /** Elsewhere no edge leads into a keyword. */
  lemma {:induction false} RunFree(prog: seq<Instr>, x: Node, c: char)
    requires Tame(prog) && !x.Pre? && (Speller(x) ==> Blank(c))
    ensures !Run(prog, x, c).to.Pre?
    decreases |prog|
  {
    if prog != [] {
      var i, rest := prog[|prog| - 1], prog[..|prog| - 1];
      assert Decent(i);
      RunFree(rest, x, c);
      if i.Kw? {
        KeywordsLetter(i.at, i.k);
        if x == i.at { assert Letter(i.k.word[0]); }
      }
    }
  }

  lemma {:induction false} RunDead(prog: seq<Instr>, x: Node, c: char)
    requires Tame(prog) && !x.Pre? && forall j :: 0 <= j < |prog| ==> prog[j].at != x
    ensures Run(prog, x, c) == DEAD
    decreases |prog|
  {
    if prog != [] {
      assert Decent(prog[|prog| - 1]) && prog[|prog| - 1].at != x;
      RunDead(prog[..|prog| - 1], x, c);
    }
  }

  /** Along the letters of its next keyword a node has free edges or edges of other keywords that go on. */
  lemma RunAlong(prog: seq<Instr>, n: Node, j: nat, i: nat)
    requires Tame(prog) && Speller(n) && j < |Keywords(n)| && WordsOf(prog, n) == Keywords(n)[..j] && i < |Keywords(n)[j].word|
    ensures var w := Keywords(n)[j].word; var e := Run(prog, At(n, w[..i]), w[i]);
            e.to == Err || (i + 1 < |w| && e.to == Pre(n, w[..i + 1]))
  {
    var w := Keywords(n)[j].word;
    KeywordGraph(n, j);
    KeywordsAreTidy(n);
    EndsOf(n);
    AtUnder(n, w, i);
    assert Letter(w[i]) && w[..i] + [w[i]] == w[..i + 1];
    RunSpells(prog, n, At(n, w[..i]), w[i]);
    NewKeywordFits(n, Keywords(n), j, i);
  }

  function CountOf(words: map<Node, nat>, n: Node): nat { if n in words then words[n] else 0 }

  /** The node has as many of its keywords, the first ones, as counted. */
  predicate FirstWords(prog: seq<Instr>, words: map<Node, nat>, n: Node)
  {
    CountOf(words, n) <= |Keywords(n)| && WordsOf(prog, n) == Keywords(n)[..CountOf(words, n)]
  }

  lemma NextWord(prog: seq<Instr>, words: map<Node, nat>, n: Node, m: Node)
    requires FirstWords(prog, words, n) && FirstWords(prog, words, m) && CountOf(words, n) < |Keywords(n)|
    ensures FirstWords(prog + [Kw(n, Keywords(n)[CountOf(words, n)])], words[n := CountOf(words, n) + 1], m)
  {
    var j := CountOf(words, n);
    WordsSnoc(prog, n, Keywords(n)[j], m);
    if m == n { TakeMore(Keywords(n), j); }
  }

  lemma RunSnoc(prog: seq<Instr>, i: Instr, x: Node, c: char)
    ensures Run(prog + [i], x, c) == Effect(i, x, c, Run(prog, x, c))
  {
    assert (prog + [i])[..|prog|] == prog;
  }

  lemma WordsSnoc(prog: seq<Instr>, n: Node, k: Keyword, m: Node)
    ensures WordsOf(prog + [Kw(n, k)], m) == if m == n then WordsOf(prog, n) + [k] else WordsOf(prog, m)
  {
    assert (prog + [Kw(n, k)])[..|prog|] == prog;
  }

  lemma TakeMore<T>(s: seq<T>, j: nat)
    requires j < |s|
    ensures s[..j + 1] == s[..j] + [s[j]]
  {
  }

  lemma {:induction false} RunOutside(prog: seq<Instr>, x: Node, c: char)
    requires Tame(prog) && x.Pre? && !Speller(x.from)
    ensures Run(prog, x, c) == DEAD
    decreases |prog|
  {
    if prog != [] {
      assert Decent(prog[|prog| - 1]);
      RunOutside(prog[..|prog| - 1], x, c);
    }
  }

  /** The arena at some moment. */
  datatype Arena = Arena(names: seq<Node>, next: seq<seq<nat>>, save: seq<seq<int>>)

  function EdgeIn(a: Arena, p: nat, c: char): Edge
  {
    if p < |a.next| && p < |a.save| && c as int < |a.next[p]| && c as int < |a.save[p]| then
      Cell(a.names, a.next[p][c as int], a.save[p][c as int])
    else DEAD
  }

  /** The edge at that moment; a node made since had none. */
  function Was(a: Arena, p: nat, c: char): Edge { if p < |a.names| then EdgeIn(a, p, c) else DEAD }

  class Engine {
    var states: seq<ParseState>
    var results: seq<NodeResult>
    var next: seq<seq<nat>>
    var save: seq<seq<int>>
    ghost var names: seq<Node>
    ghost var at: map<Node, nat>          // where the nodes that are not inside keywords are
    ghost var prog: seq<Instr>            // the steps taken so far
    ghost var words: map<Node, nat>       // how many keywords a node has

    ghost predicate NodeOk(p: nat)
      reads `states, `results, `next, `save, `names
    {
      p < |states| ==>
        && |results| == |next| == |save| == |names| == |states|
        && states[p] == StateOf(names[p]) && results[p] == ResultOf(names[p]) && |next[p]| == 256 && |save[p]| == 256
        && (forall c :: 0 <= c < 256 ==> next[p][c] < |states|)
    }

    ghost predicate Sized()
      reads `states, `results, `next, `save, `names
    {
      |results| == |next| == |save| == |names| == |states| && |names| > 0 && names[0] == Err && forall p :: NodeOk(p)
    }

    /** Where node `p` goes on a character. */
    ghost function EdgeAt(p: nat, c: char): Edge
      reads `states, `results, `next, `save, `names
    {
      EdgeIn(Now(), p, c)
    }

    ghost function Now(): Arena
      reads `states, `results, `next, `save, `names
    {
      Arena(names, next, save)
    }

    /** A prefix node has its parent in the arena, and hangs on it. */
    ghost predicate HasParent(r: nat)
      reads `states, `results, `next, `save, `names
    {
      r < |names| && names[r].Pre? ==> names[r].p != [] && At(names[r].from, Front(names[r].p)) in names
    }

    ghost predicate Hangs(r: nat, p: nat)
      reads `states, `results, `next, `save, `names
    {
      r < |names| && p < |names| && names[r].Pre? && names[r].p != [] && names[p] == At(names[r].from, Front(names[r].p)) ==>
        EdgeAt(p, Last(names[r].p)).to == names[r]
    }

    ghost predicate Valid()
      reads `states, `results, `next, `save, `names
    {
      && Sized() && (forall p, q :: Apart(names, p, q))
      && (forall r :: HasParent(r)) && (forall r, p :: Hangs(r, p))
    }

    constructor ()
      ensures Good() && at == map[Err := 0] && prog == [] && words == map[]
    {
      states := [Error];
      results := [Nothing];
      next := [seq(256, i => 0)];
      save := [seq(256, i => 0)];
      names := [Err];
      at := map[Err := 0];
      prog := [];
      words := map[];
    }

    /** `new parse_engine_node(error_node, ...)`: every character leads to the error node. */
    method NewNode(state: ParseState, result: NodeResult, ghost x: Node) returns (p: nat)
      requires Sized() && state == StateOf(x) && result == ResultOf(x)
      modifies `states, `results, `next, `save, `names
      ensures Sized() && p == |old(names)| && names == old(names) + [x]
      ensures forall q: nat, c: char :: EdgeAt(q, c) == if q < |old(names)| then old(EdgeAt(q, c)) else DEAD
    {
      p := |states|;
      states := states + [state];
      results := results + [result];
      next := next + [seq(256, i => 0)];
      save := save + [seq(256, i => 0)];
      names := names + [x];
      forall q: nat ensures NodeOk(q) { assert q < p ==> old(NodeOk(q)); }
      forall q: nat, c: char ensures EdgeAt(q, c) == if q < |old(names)| then old(EdgeAt(q, c)) else DEAD {
        assert q < p ==> old(NodeOk(q));
      }
    }

    method Link(p: nat, c: Byte, q: nat, sv: int)
      requires Sized() && p < |names| && q < |names|
      modifies `states, `results, `next, `save, `names
      ensures Sized() && names == old(names)
      ensures forall r: nat, d: char :: EdgeAt(r, d) == if r == p && d == c then Edge(names[q], sv) else old(EdgeAt(r, d))
    {
      assert NodeOk(p);
      var row: seq<nat> := next[p];
      row := row[c as int := q];
      next := next[p := row];
      save := save[p := save[p][c as int := sv]];
      forall r: nat ensures NodeOk(r) { assert old(NodeOk(r)); }
      forall r: nat, d: char ensures EdgeAt(r, d) == if r == p && d == c then Edge(names[q], sv) else old(EdgeAt(r, d)) {
        assert old(NodeOk(r));
      }
    }

    /** A node of the automaton that is not inside a keyword. */
    method Fresh(state: ParseState, result: NodeResult, ghost x: Node) returns (p: nat)
      requires Valid() && state == StateOf(x) && result == ResultOf(x) && x !in names && !x.Pre?
      modifies `states, `results, `next, `save, `names
      ensures Valid() && p == |old(names)| && names == old(names) + [x]
      ensures forall q: nat, c: char :: EdgeAt(q, c) == if q < |old(names)| then old(EdgeAt(q, c)) else DEAD
    {
      p := NewNode(state, result, x);
      forall q, r ensures Apart(names, q, r) { assert old(Apart(names, q, r)); }
      forall r: nat ensures HasParent(r) { assert old(HasParent(r)); }
      forall r: nat, q: nat ensures Hangs(r, q) { assert old(Hangs(r, q)) && old(HasParent(r)); }
    }

    /** `link` for every character of a string. */
    method LinkAll(p: nat, s: seq<Byte>, q: nat, sv: int)
      requires Valid() && p < |names| && q < |names|
      requires forall c :: c in s ==> !EdgeAt(p, c).to.Pre?
      modifies `states, `results, `next, `save, `names
      ensures Valid() && names == old(names)
      ensures forall r: nat, d: char :: EdgeAt(r, d) == if r == p && d in s then Edge(names[q], sv) else old(EdgeAt(r, d))
    {
      var i := 0;
      while i < |s|
        invariant 0 <= i <= |s| && Sized() && names == old(names)
        invariant forall r: nat, d: char :: EdgeAt(r, d) == if r == p && d in s[..i] then Edge(names[q], sv) else old(EdgeAt(r, d))
      {
        Link(p, s[i], q, sv);
        assert s[..i + 1] == s[..i] + [s[i]];
        i := i + 1;
      }
      assert s[..i] == s;
      forall r: nat ensures HasParent(r) { assert old(HasParent(r)); }
      forall r: nat, q: nat ensures Hangs(r, q) { assert old(Hangs(r, q)); }
    }

    /** `link` for the characters from `lo` up to, not including, `hi`. */
    method LinkRange(p: nat, lo: nat, hi: nat, q: nat, sv: int)
      requires Valid() && p < |names| && q < |names| && lo <= hi <= 256
      requires forall c: char :: lo <= c as int < hi ==> !EdgeAt(p, c).to.Pre?
      modifies `states, `results, `next, `save, `names
      ensures Valid() && names == old(names)
      ensures forall r: nat, d: char ::
                EdgeAt(r, d) == if r == p && lo <= d as int < hi then Edge(names[q], sv) else old(EdgeAt(r, d))
    {
      var i := lo;
      while i < hi
        invariant lo <= i <= hi && Sized() && names == old(names)
        invariant forall r: nat, d: char ::
                    EdgeAt(r, d) == if r == p && lo <= d as int < i then Edge(names[q], sv) else old(EdgeAt(r, d))
      {
        Link(p, i as char, q, sv);
        i := i + 1;
      }
      forall r: nat ensures HasParent(r) { assert old(HasParent(r)); }
      forall r: nat, q: nat ensures Hangs(r, q) { assert old(Hangs(r, q)); }
    }

    /** A new node inside a keyword, hung on node `pos`. */
    method Extend(pos: nat, c: Byte, sv: int, ghost n: Node, ghost u: string) returns (node: nat)
      requires Valid() && pos < |names| && names[pos] == At(n, u) && !n.Pre? && EdgeAt(pos, c).to == Err
      modifies `states, `results, `next, `save, `names
      ensures Valid() && node == |old(names)| && names == old(names) + [Pre(n, u + [c])]
      ensures forall r: nat, d: char ::
                EdgeAt(r, d) == if r == pos && d == c then Edge(Pre(n, u + [c]), sv)
                                else if r < |old(names)| then old(EdgeAt(r, d)) else DEAD
    {
      ghost var x := Pre(n, u + [c]);
      assert Front(x.p) == u && Last(x.p) == c;
      forall r: nat | r < |names| ensures names[r] != x { assert Hangs(r, pos); }
      node := NewNode(Indeterminate, Nothing, x);
      Link(pos, c, node, sv);
      forall q, r ensures Apart(names, q, r) { assert old(Apart(names, q, r)); }
      forall r: nat ensures HasParent(r) { assert old(HasParent(r)); }
      forall r: nat, q: nat ensures Hangs(r, q) {
        assert old(Hangs(r, q)) && old(HasParent(r)) && old(Apart(names, q, pos)) && old(Apart(names, pos, q));
      }
    }

    /** Along the keyword the table has free edges or, before its end, edges of other keywords. */
    ghost predicate Free(n: Node, w: string, p: nat, i: nat)
      reads `states, `results, `next, `save, `names
    {
      p < |names| && i < |w| && names[p] == At(n, w[..i]) ==>
        EdgeAt(p, w[i]).to == Err || (i + 1 < |w| && EdgeAt(p, w[i]).to == Pre(n, w[..i + 1]))
    }

    ghost predicate Prefixes(n: Node, from: nat)
      reads `states, `results, `next, `save, `names
    {
      forall r :: from <= r < |names| ==> names[r].Pre? && names[r].from == n && names[r].p != []
    }

    /** The table has the first `i` letters of the keyword in it, besides what it had then. */
    ghost predicate GrownTo(was: Arena, n: Node, k: Keyword, i: nat)
      reads `states, `results, `next, `save, `names
    {
      && was.names <= names && Prefixes(n, |was.names|)
      && forall r: nat, d: char :: r < |names| ==> EdgeAt(r, d) == Grown(n, k, i, names[r], d, Was(was, r, d))
    }

    /** `create_list`: the keyword `w` from node `start` to node `end`, sharing what is there already. */
    method CreateList(w: seq<Byte>, start: nat, end: nat, sv: int)
      requires Valid() && start < |names| && end < |names| && w != [] && !names[start].Pre? && !names[end].Pre?
      requires forall p: nat, i: nat :: Free(names[start], w, p, i)
      modifies `states, `results, `next, `save, `names
      ensures Valid() && GrownTo(old(Now()), old(names[start]), Keyword(w, old(names[end]), sv), |w|)
    {
      ghost var n, was := names[start], Now();
      ghost var k := Keyword(w, names[end], sv);
      var pos: nat := start;
      var i := 0;
      assert At(n, w[..0]) == n;
      while i < |w| - 1
        invariant 0 <= i < |w| && Valid() && pos < |names| && names[pos] == At(n, w[..i])
        invariant GrownTo(was, n, k, i)
      {
        assert old(Free(n, w, pos, i));
        pos := Walk(pos, w, i, sv, n, k, was);
        i := i + 1;
      }
      assert old(Free(n, w, pos, i));
      Finish(pos, w, end, sv, n, k, was);
    }

    ghost predicate FreeThen(was: Arena, p: nat, k: Keyword, n: Node, i: nat)
    {
      i < |k.word| &&
        (Was(was, p, k.word[i]).to == Err || (i + 1 < |k.word| && Was(was, p, k.word[i]).to == Pre(n, k.word[..i + 1])))
    }

    /** One turn of the loop of `create_list`. */
    method Walk(pos: nat, w: seq<Byte>, i: nat, sv: int, ghost n: Node, ghost k: Keyword, ghost was: Arena) returns (to: nat)
      requires Valid() && i + 1 < |w| && k.word == w && k.save == sv && !n.Pre?
      requires pos < |names| && names[pos] == At(n, w[..i]) && GrownTo(was, n, k, i) && FreeThen(was, pos, k, n, i)
      modifies `states, `results, `next, `save, `names
      ensures Valid() && to < |names| && names[to] == At(n, w[..i + 1]) && GrownTo(was, n, k, i + 1) && old(names) <= names
    {
      assert NodeOk(pos);
      GrownHere(n, k, i, names[pos], Was(was, pos, w[i]));
      assert next[pos][w[i] as int] == 0 <==> EdgeAt(pos, w[i]).to == Err by { assert Apart(names, 0, next[pos][w[i] as int]); }
      if next[pos][w[i] as int] == 0 {
        to := WalkNew(pos, w, i, sv, n, k, was);
      } else {
        to := next[pos][w[i] as int];
        WalkOld(pos, i, n, k, was);
      }
    }

    /** The next letter leads on already. */
    lemma WalkOld(pos: nat, i: nat, n: Node, k: Keyword, was: Arena)
      requires Valid() && i + 1 < |k.word| && !n.Pre? && pos < |names| && names[pos] == At(n, k.word[..i]) && GrownTo(was, n, k, i)
      requires Was(was, pos, k.word[i]).to != Err
      ensures GrownTo(was, n, k, i + 1)
    {
      forall r: nat, d: char | r < |names| ensures EdgeAt(r, d) == Grown(n, k, i + 1, names[r], d, Was(was, r, d)) {
        assert Apart(names, r, pos) && Apart(names, pos, r);
        GrownElse(n, k, i, names[r], d, Was(was, r, d));
      }
    }

    /** The next letter needs a new node. */
    method WalkNew(pos: nat, w: seq<Byte>, i: nat, sv: int, ghost n: Node, ghost k: Keyword, ghost was: Arena) returns (to: nat)
      requires Valid() && i + 1 < |w| && k.word == w && k.save == sv && !n.Pre?
      requires pos < |names| && names[pos] == At(n, w[..i]) && GrownTo(was, n, k, i)
      requires EdgeAt(pos, w[i]).to == Err && Was(was, pos, w[i]).to == Err
      modifies `states, `results, `next, `save, `names
      ensures Valid() && to < |names| && names[to] == At(n, w[..i + 1]) && GrownTo(was, n, k, i + 1) && old(names) <= names
    {
      to := Extend(pos, w[i], sv, n, w[..i]);
      assert w[..i] + [w[i]] == w[..i + 1];
      forall r: nat, d: char | r < |names| ensures EdgeAt(r, d) == Grown(n, k, i + 1, names[r], d, Was(was, r, d)) {
        if Tip(n, w, i, names[r], d) && Was(was, r, d).to == Err { GrownTip(n, k, i, names[r], d, Was(was, r, d)); }
        else { GrownElse(n, k, i, names[r], d, Was(was, r, d)); }
        assert Apart(names, r, pos) && Apart(names, pos, r);
      }
    }

    method Finish(pos: nat, w: seq<Byte>, end: nat, sv: int, ghost n: Node, ghost k: Keyword, ghost was: Arena)
      requires Valid() && w != [] && k == Keyword(w, k.end, sv) && !n.Pre? && end < |names| && names[end] == k.end && !k.end.Pre?
      requires pos < |names| && names[pos] == At(n, w[..|w| - 1]) && GrownTo(was, n, k, |w| - 1)
      requires FreeThen(was, pos, k, n, |w| - 1)
      modifies `states, `results, `next, `save, `names
      ensures Valid() && GrownTo(was, n, k, |w|)
    {
      var i := |w| - 1;
      GrownHere(n, k, i, names[pos], Was(was, pos, w[i]));
      LinkAll(pos, [w[i]], end, sv);
      forall r: nat, d: char | r < |names| ensures EdgeAt(r, d) == Grown(n, k, |w|, names[r], d, Was(was, r, d)) {
        if Tip(n, w, i, names[r], d) && Was(was, r, d).to == Err { GrownTip(n, k, i, names[r], d, Was(was, r, d)); }
        else { GrownElse(n, k, i, names[r], d, Was(was, r, d)); }
        assert Apart(names, r, pos) && Apart(names, pos, r);
      }
    }

    // ---- nodes by name, links by step

    /** The table is what the steps make it, and the nodes they mention are known by name. */
    ghost predicate Tracks()
      reads this
    {
      forall p: nat, c: Byte :: p < |names| ==> EdgeAt(p, c) == Run(prog, names[p], c)
    }

    ghost predicate Known(x: Node)
      reads `names, `at
    {
      !x.Pre? ==> (x in names <==> x in at) && (x in at ==> at[x] < |names| && names[at[x]] == x)
    }

    ghost predicate Homes()
      reads `prog, `at
    {
      forall j :: 0 <= j < |prog| ==> prog[j].at in at
    }

    ghost function Count(n: Node): nat
      reads `words
    {
      CountOf(words, n)
    }

    ghost predicate HasWords(n: Node)
      reads `prog, `words
    {
      FirstWords(prog, words, n)
    }

    ghost predicate Good()
      reads this
    {
      Valid() && Tame(prog) && Tracks() && Homes() && (forall x :: Known(x)) && (forall n :: HasWords(n))
    }

    method Make(state: ParseState, result: NodeResult, ghost x: Node) returns (p: nat)
      requires Good() && state == StateOf(x) && result == ResultOf(x) && x !in at && !x.Pre?
      modifies this
      ensures Good() && prog == old(prog) && words == old(words) && at == old(at)[x := p]
    {
      assert Known(x);
      p := Fresh(state, result, x);
      at := at[x := p];
      forall q: nat, c: Byte | q < |names| ensures EdgeAt(q, c) == Run(prog, names[q], c) {
        if q == p { RunDead(prog, x, c); } else { assert names[q] == old(names)[q]; }
      }
      forall y ensures Known(y) { assert old(Known(y)); }
      forall n ensures HasWords(n) { assert old(HasWords(n)); }
    }

    ghost predicate Named(p: nat, x: Node)
      reads `at
    {
      x in at && at[x] == p
    }

    /** A step leaves everything else in order. */
    lemma StepGood(i: Instr)
      requires Valid() && Decent(i) && i.at in at && (forall x :: Known(x)) && (forall n :: HasWords(n))
      requires prog != [] && prog[|prog| - 1] == i && Tame(prog[..|prog| - 1])
      requires forall j :: 0 <= j < |prog| - 1 ==> prog[j].at in at
      requires forall p: nat, c: Byte :: p < |names| ==> EdgeAt(p, c) == Effect(i, names[p], c, Run(prog[..|prog| - 1], names[p], c))
      ensures Good()
    {
      forall j | 0 <= j < |prog| ensures Decent(prog[j]) { assert j < |prog| - 1 ==> Decent(prog[..|prog| - 1][j]); }
    }

    /** `link` for the characters of a string. */
    method PutChars(p: nat, s: seq<Byte>, q: nat, sv: int, ghost x: Node, ghost cs: Class, ghost y: Node)
      requires Good() && Named(p, x) && Named(q, y) && Decent(Put(x, cs, y, sv)) && forall c: Byte :: c in s <==> Has(cs, c)
      modifies this
      ensures Good() && at == old(at) && words == old(words) && prog == old(prog) + [Put(x, cs, y, sv)]
    {
      assert Known(x) && Known(y);
      forall c: Byte | c in s ensures !EdgeAt(p, c).to.Pre? { RunFree(prog, x, c); }
      LinkAll(p, s, q, sv);
      prog := prog + [Put(x, cs, y, sv)];
      assert prog[..|prog| - 1] == old(prog);
      forall y ensures Known(y) { assert old(Known(y)); }
      forall r: nat, c: Byte | r < |names| ensures EdgeAt(r, c) == Effect(Put(x, cs, y, sv), names[r], c, Run(old(prog), names[r], c)) {
        assert Apart(names, p, r) && Apart(names, r, p);
      }
      forall n ensures HasWords(n) { assert old(HasWords(n)); }
      StepGood(Put(x, cs, y, sv));
    }

    /** `link` in a loop over a range of characters. */
    method PutRange(p: nat, lo: nat, hi: nat, q: nat, sv: int, ghost x: Node, ghost cs: Class, ghost y: Node)
      requires Good() && Named(p, x) && Named(q, y) && Decent(Put(x, cs, y, sv)) && lo <= hi <= 256
      requires forall c: Byte :: lo <= c as int < hi <==> Has(cs, c)
      modifies this
      ensures Good() && at == old(at) && words == old(words) && prog == old(prog) + [Put(x, cs, y, sv)]
    {
      assert Known(x) && Known(y);
      forall c: char | lo <= c as int < hi ensures !EdgeAt(p, c).to.Pre? {
        var b: Byte := c;
        assert Has(cs, b);
        RunFree(prog, x, c);
      }
      LinkRange(p, lo, hi, q, sv);
      prog := prog + [Put(x, cs, y, sv)];
      assert prog[..|prog| - 1] == old(prog);
      forall y ensures Known(y) { assert old(Known(y)); }
      forall r: nat, c: Byte | r < |names| ensures EdgeAt(r, c) == Effect(Put(x, cs, y, sv), names[r], c, Run(old(prog), names[r], c)) {
        assert Apart(names, p, r) && Apart(names, r, p);
      }
      forall n ensures HasWords(n) { assert old(HasWords(n)); }
      StepGood(Put(x, cs, y, sv));
    }

    /** The nodes inside the keywords added so far are in the arena. */
    lemma {:induction false} Present(n: Node, j: nat, q: string)
      requires Good() && Speller(n) && n in names && j <= |Keywords(n)| && WordsOf(prog, n) == Keywords(n)[..j]
      requires q != [] && Spelt(Keywords(n)[..j], q) && Spell(n, Keywords(n)[..j], q).to == Pre(n, q)
      ensures Pre(n, q) in names
      decreases |q|
    {
      var ws, f, c := Keywords(n)[..j], Front(q), Last(q);
      KeywordsAreTidy(n);
      TidyPrefix(Keywords(n), j);
      var k := SpeltBy(n, ws, q);
      KeywordGraph(n, k);
      assert q == f + [c] && c == ws[k].word[|f|] && Letter(c);
      if f != [] {
        SpeltBefore(n, ws, f, c);
        Present(n, j, f);
      }
      PresentStep(n, ws, f, c);
    }

    lemma PresentStep(n: Node, ws: seq<Keyword>, f: string, c: char)
      requires Valid() && Tame(prog) && Tracks() && Speller(n) && At(n, f) in names && Letter(c) && WordsOf(prog, n) == ws
      requires Spell(n, ws, f + [c]).to == Pre(n, f + [c])
      ensures Pre(n, f + [c]) in names
    {
      var p: nat :| p < |names| && names[p] == At(n, f);
      assert f[..|f|] == f;
      AtUnder(n, f, |f|);
      RunSpells(prog, n, names[p], c);
      assert EdgeAt(p, c).to == Pre(n, f + [c]);
    }

    lemma FreeAlong(n: Node, j: nat, p: nat, i: nat)
      requires Good() && Speller(n) && j < |Keywords(n)| && WordsOf(prog, n) == Keywords(n)[..j]
      ensures Free(n, Keywords(n)[j].word, p, i)
    {
      var w := Keywords(n)[j].word;
      if p < |names| && i < |w| && names[p] == At(n, w[..i]) {
        KeywordGraph(n, j);
        assert Letter(w[i]);
        RunAlong(prog, n, j, i);
      }
    }

    /** A node made for the new keyword was out of reach before. */
    lemma NewIsDead(was: seq<Instr>, n: Node, j: nat, olds: seq<Node>, p: nat, c: char)
      requires Valid() && Tame(was) && Speller(n) && j <= |Keywords(n)| && WordsOf(was, n) == Keywords(n)[..j] && olds <= names
      requires |olds| <= p < |names| && names[p].Pre? && names[p].from == n && names[p].p != []
      requires forall q: string :: q != [] && Spelt(Keywords(n)[..j], q) && Spell(n, Keywords(n)[..j], q).to == Pre(n, q) ==> Pre(n, q) in olds
      ensures Run(was, names[p], c) == DEAD
    {
      var ws, q := Keywords(n)[..j], names[p].p;
      KeywordsAreTidy(n);
      TidyPrefix(Keywords(n), j);
      assert names[p] !in olds by { forall r | 0 <= r < |olds| ensures olds[r] != names[p] { assert Apart(names, r, p); } }
      assert !Spelt(ws, q + [c]) by { if Spelt(ws, q + [c]) { SpeltBefore(n, ws, q, c); } }
      NotSpelt(n, ws, q + [c]);
      RunSpells(was, n, names[p], c);
    }

    /** The table after `create_list` for the next keyword of a node. */
    method SpellOut(w: seq<Byte>, start: nat, end: nat, sv: int, ghost n: Node, ghost y: Node, ghost j: nat)
      requires Good() && start < |names| && end < |names| && names[start] == n && names[end] == y && Speller(n)
      requires j < |Keywords(n)| && WordsOf(prog, n) == Keywords(n)[..j] && Keywords(n)[j] == Keyword(w, y, sv)
      modifies `states, `results, `next, `save, `names
      ensures Valid() && (forall y :: Known(y))
      ensures forall p: nat, c: Byte :: p < |names| ==> EdgeAt(p, c) == Effect(Kw(n, Keyword(w, y, sv)), names[p], c, Run(prog, names[p], c))
    {
      ghost var i, ws := Kw(n, Keywords(n)[j]), Keywords(n)[..j];
      KeywordGraph(n, j);
      EndsOf(n);
      forall p: nat, i: nat ensures Free(n, w, p, i) { FreeAlong(n, j, p, i); }
      forall q: string | q != [] && Spelt(ws, q) && Spell(n, ws, q).to == Pre(n, q) ensures Pre(n, q) in names { Present(n, j, q); }
      CreateList(w, start, end, sv);
      forall p: nat, c: Byte | p < |names| ensures EdgeAt(p, c) == Effect(i, names[p], c, Run(prog, names[p], c)) {
        if p >= |old(names)| { NewIsDead(prog, n, j, old(names), p, c); }
      }
      forall y ensures Known(y) { assert old(Known(y)); }
    }

    ghost method Record(n: Node, k: Keyword)
      requires Tame(prog) && Homes() && (forall m :: HasWords(m)) && n in at && Speller(n)
      requires Count(n) < |Keywords(n)| && Keywords(n)[Count(n)] == k
      modifies `prog, `words
      ensures Tame(prog) && Homes() && (forall m :: HasWords(m))
      ensures words == old(words)[n := old(Count(n)) + 1] && prog == old(prog) + [Kw(n, k)]
    {
      ghost var prog', words' := prog + [Kw(n, k)], words[n := Count(n) + 1];
      forall m ensures FirstWords(prog', words', m) {
        assert HasWords(m) && HasWords(n);
        NextWord(prog, words, n, m);
      }
      prog, words := prog', words';
    }

    /** `create_list` for the next keyword of a node. */
    method AddKeyword(w: seq<Byte>, start: nat, end: nat, sv: int, ghost n: Node, ghost y: Node)
      requires Good() && Named(start, n) && Named(end, y) && Speller(n) && !y.Pre?
      requires Count(n) < |Keywords(n)| && Keywords(n)[Count(n)] == Keyword(w, y, sv)
      modifies this
      ensures Good() && at == old(at) && words == old(words)[n := old(Count(n)) + 1] && prog == old(prog) + [Kw(n, Keyword(w, y, sv))]
    {
      assert Known(n) && Known(y) && HasWords(n);
      SpellOut(w, start, end, sv, n, y, Count(n));
      Record(n, Keyword(w, y, sv));
      forall p: nat, c: Byte | p < |names| ensures EdgeAt(p, c) == Run(prog, names[p], c) {
        RunSnoc(old(prog), Kw(n, Keyword(w, y, sv)), names[p], c);
      }
    }

    method PutOne(p: nat, c: Byte, q: nat, ghost x: Node, ghost y: Node)
      requires Good() && Named(p, x) && Named(q, y) && !x.Pre? && !y.Pre? && !Speller(x)
      modifies this
      ensures Good() && at == old(at) && words == old(words) && prog == old(prog) + [Put(x, One(c), y, 0)]
    {
      PutChars(p, [c], q, 0, x, One(c), y);
    }

    method PutBlanks(p: nat, q: nat, ghost x: Node, ghost y: Node)
      requires Good() && Named(p, x) && Named(q, y) && !x.Pre? && !x.Root? && !y.Pre?
      modifies this
      ensures Good() && at == old(at) && words == old(words) && prog == old(prog) + [Put(x, Blanks, y, 0)]
    {
      PutChars(p, " \t", q, 0, x, Blanks, y);
    }

    method PutLineEnds(p: nat, q: nat, ghost x: Node, ghost y: Node)
      requires Good() && Named(p, x) && Named(q, y) && !x.Pre? && !y.Pre? && !Speller(x)
      modifies this
      ensures Good() && at == old(at) && words == old(words) && prog == old(prog) + [Put(x, LineEnds, y, 0)]
    {
      PutChars(p, "\r\n", q, 0, x, LineEnds, y);
    }

    method PutGraphs(p: nat, q: nat, sv: int, ghost x: Node, ghost y: Node)
      requires Good() && Named(p, x) && Named(q, y) && !x.Pre? && !y.Pre? && !Speller(x)
      modifies this
      ensures Good() && at == old(at) && words == old(words) && prog == old(prog) + [Put(x, Graphs, y, sv)]
    {
      PutRange(p, 33, 127, q, sv, x, Graphs, y);
    }

    method PutDigits(p: nat, q: nat, ghost x: Node, ghost y: Node)
      requires Good() && Named(p, x) && Named(q, y) && !x.Pre? && !y.Pre? && !Speller(x)
      modifies this
      ensures Good() && at == old(at) && words == old(words) && prog == old(prog) + [Put(x, Nums, y, 1)]
    {
      PutRange(p, '0' as int, '9' as int + 1, q, 1, x, Nums, y);
    }
  }
}
