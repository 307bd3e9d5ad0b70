/** Keywords: no one is a prefix of another, so spelling one letter by letter finds it. */
module HttpKeywords {

  import opened HttpGrammar

  predicate Clash(ks: seq<Keyword>, i: int, j: int)
  {
    0 <= i < |ks| && 0 <= j < |ks| && i != j &&
      (ks[i].word <= ks[j].word || (ks[i].word != [] && ks[j].word != [] && ks[i].word[0] == ks[j].word[0] && ks[i].save != ks[j].save))
  }

  /** No keyword is a prefix of another, and those that share a letter are saved alike. */
  ghost predicate Tidy(ks: seq<Keyword>) { forall i, j :: !Clash(ks, i, j) }

  lemma RootIsTidy()
    ensures Tidy(Keywords(Root))
  {
    var ks := Keywords(Root);
    assert ks[1].word[1] != ks[2].word[1];
    forall i, j ensures !Clash(ks, i, j) {
      if 0 <= i < |ks| && 0 <= j < |ks| && i != j {
        assert ks[i].word[0] == ks[j].word[0] ==> (i == 1 && j == 2) || (i == 2 && j == 1);
      }
    }
  }

  lemma KeywordsAreTidy(n: Node)
    ensures Tidy(Keywords(n))
  {
    if n.Root? { RootIsTidy(); }
  }

  lemma {:induction false} SpellPrefix(n: Node, ks: seq<Keyword>, k: nat, q: string)
    requires Tidy(ks) && k < |ks| && q != [] && q <= ks[k].word
    ensures Spell(n, ks, q) == Edge(if |q| == |ks[k].word| then ks[k].end else Pre(n, q), ks[k].save)
    decreases |ks|
  {
    if k > 0 {
      assert !Clash(ks, 0, k) && !Clash(ks, k, 0);
      if q <= ks[0].word {
        assert ks[0].word[0] == q[0] == ks[k].word[0];
        assert |q| != |ks[k].word| by { assert !(ks[k].word <= ks[0].word); }
        assert |q| != |ks[0].word|;
      } else {
        forall i, j ensures !Clash(ks[1..], i, j) { assert !Clash(ks, i + 1, j + 1); }
        SpellPrefix(n, ks[1..], k - 1, q);
      }
    }
  }

  predicate Speller(n: Node) { n.Root? || n.PathSp? || n.CodeSp? }

  lemma {:induction false} SpellSnoc(n: Node, ks: seq<Keyword>, k: Keyword, q: string)
    ensures Spell(n, ks + [k], q) == if Spelt(ks, q) then Spell(n, ks, q) else Spell(n, [k], q)
    decreases |ks|
  {
    if ks == [] {
      assert ks + [k] == [k];
    } else {
      assert (ks + [k])[1..] == ks[1..] + [k];
      SpellSnoc(n, ks[1..], k, q);
    }
  }

  /** The letters begin one of the keywords. */
  predicate Spelt(ks: seq<Keyword>, q: string)
  {
    ks != [] && (q <= ks[0].word || Spelt(ks[1..], q))
  }

  lemma {:induction false} NotSpelt(n: Node, ks: seq<Keyword>, q: string)
    requires !Spelt(ks, q)
    ensures Spell(n, ks, q) == DEAD
    decreases |ks|
  {
    if ks != [] { NotSpelt(n, ks[1..], q); }
  }

  lemma {:induction false} SpeltBy(n: Node, ks: seq<Keyword>, q: string) returns (k: nat)
    requires Spelt(ks, q)
    ensures k < |ks| && q <= ks[k].word
    ensures Spell(n, ks, q) == Edge(if |q| == |ks[k].word| then ks[k].end else Pre(n, q), ks[k].save)
    decreases |ks|
  {
    if q <= ks[0].word {
      k := 0;
    } else {
      k := SpeltBy(n, ks[1..], q);
      k := k + 1;
    }
  }

  lemma SpellHit(n: Node, ks: seq<Keyword>, q: string) returns (k: nat)
    requires Spell(n, ks, q) != DEAD
    ensures k < |ks| && q <= ks[k].word
    ensures Spell(n, ks, q) == Edge(if |q| == |ks[k].word| then ks[k].end else Pre(n, q), ks[k].save)
  {
    assert Spelt(ks, q) by { if !Spelt(ks, q) { NotSpelt(n, ks, q); } }
    k := SpeltBy(n, ks, q);
  }

  /** No keyword ends in the error node. */
  predicate Ends(ks: seq<Keyword>) { forall j :: 0 <= j < |ks| ==> !ks[j].end.Err? && !ks[j].end.Pre? && ks[j].word != [] }

  lemma SpeltIsAlive(n: Node, ks: seq<Keyword>, q: string)
    requires Ends(ks)
    ensures Spelt(ks, q) <==> Spell(n, ks, q).to != Err
  {
    if Spelt(ks, q) { var k := SpeltBy(n, ks, q); } else { NotSpelt(n, ks, q); }
  }

  lemma TidyPrefix(ks: seq<Keyword>, j: nat)
    requires Tidy(ks) && j <= |ks|
    ensures Tidy(ks[..j])
  {
    forall i, k ensures !Clash(ks[..j], i, k) { assert !Clash(ks, i, k); }
  }

  /** If more letters begin a keyword, the letters before lead to a node inside it. */
  lemma SpeltBefore(n: Node, ks: seq<Keyword>, q: string, c: char)
    requires Tidy(ks) && q != [] && Spelt(ks, q + [c])
    ensures Spelt(ks, q) && Spell(n, ks, q).to == Pre(n, q)
  {
    var k := SpeltBy(n, ks, q + [c]);
    assert q <= q + [c] <= ks[k].word;
    SpellPrefix(n, ks, k, q);
    SpeltIf(ks, k, q);
  }

  lemma {:induction false} SpeltIf(ks: seq<Keyword>, k: nat, q: string)
    requires k < |ks| && q <= ks[k].word
    ensures Spelt(ks, q)
    decreases |ks|
  {
    if k > 0 { SpeltIf(ks[1..], k - 1, q); }
  }

  /** A new keyword meets, along its letters, free edges or edges of other keywords that go on. */
  lemma NewKeywordFits(n: Node, ks: seq<Keyword>, j: nat, i: nat)
    requires Tidy(ks) && Ends(ks) && j < |ks| && i < |ks[j].word|
    ensures var w, e := ks[j].word, Spell(n, ks[..j], ks[j].word[..i + 1]);
            e.to == Err || (i + 1 < |w| && e.to == Pre(n, w[..i + 1]))
  {
    var w, ks0 := ks[j].word, ks[..j];
    var q := w[..i + 1];
    if Spelt(ks0, q) {
      var k := SpeltBy(n, ks0, q);
      assert !Clash(ks, k, j) && !Clash(ks, j, k);
      var v := ks0[k].word;
      assert q <= w && (|q| == |v| ==> v == q) && (|q| == |w| ==> q == w);
    } else {
      NotSpelt(n, ks0, q);
    }
  }
}
