/** Printing a head, and exactly when parsing the print gives the head back. */
module HttpRoundTrip {

  import opened HttpGrammar
  import opened HttpFields
  import opened HttpKeywords
  import opened HttpParser

  // ---------------------------------------------------------------- to_string

  function PrintFields(fs: seq<Field>): string
  {
    if fs == [] then [] else fs[0].key + ": " + fs[0].value + "\r\n" + PrintFields(fs[1..])
  }

  function PrintStart(i: Info): string
  {
    if i.ty.Request? then VerbName(i.verb) + " " + i.path + " " else "STATUS " + ToString(i.status) + " "
  }

  /** The word a printed head begins with. */
  function StartWord(i: Info): string { if i.ty.Request? then VerbName(i.verb) else "STATUS" }

  // The same with the words spelt as given.
  function PrintStartAs(i: Info, word: string): string
  {
    word + " " + (if i.ty.Request? then i.path else ToString(i.status)) + " "
  }

  function PrintVersionAs(i: Info, http: string): string { http + ToString(i.major) + "." + ToString(i.minor) + "\r\n" }

  function PrintAs(i: Info, word: string, http: string): string
  {
    PrintStartAs(i, word) + PrintVersionAs(i, http) + PrintFields(i.fields) + "\r\n"
  }

  lemma PrintIsPrintAs(i: Info)
    ensures Print(i) == PrintAs(i, StartWord(i), "HTTP/")
  {
    assert "STATUS" + " " == "STATUS ";
  }

  function PrintVersion(i: Info): string { "HTTP/" + ToString(i.major) + "." + ToString(i.minor) + "\r\n" }

  function Print(i: Info): string { PrintStart(i) + PrintVersion(i) + PrintFields(i.fields) + "\r\n" }

  predicate GraphAll(s: string) { forall j :: 0 <= j < |s| ==> Graph(s[j]) }

  /** A key may begin with a colon and have no other. */
  predicate KeyOk(s: string) { s != [] && GraphAll(s) && forall j :: 0 < j < |s| ==> s[j] != ':' }

  predicate ValueOk(s: string) { s != [] && GraphAll(s) }

  predicate StartOk(i: Info)
  {
    match i.ty
    case Unset => false
    case Request => i.verb != Unknown && i.path != [] && GraphAll(i.path)
    case Response => i.status >= 0
  }

  predicate FieldsOk(fs: seq<Field>) { forall j :: 0 <= j < |fs| ==> KeyOk(fs[j].key) && ValueOk(fs[j].value) }

  predicate Printable(i: Info) { StartOk(i) && i.major >= 0 && i.minor >= 0 && FieldsOk(i.fields) }

  /** The same head, as far as heads of that type go. */
  predicate Same(i: Info, j: Info)
  {
    && i.ty == j.ty && i.major == j.major && i.minor == j.minor && i.fields == j.fields
    && (if i.ty.Request? then i.verb == j.verb && i.path == j.path else i.status == j.status)
  }

  // ---------------------------------------------------------------- reading, piece by piece

  /** Consuming `s` leads from one undecided head to another. */
  predicate Reads(h: Head, s: string, h': Head) { Open(h) && Open(h') && Consume(h, s).0 == h' }

  lemma ReadsThen(h: Head, a: string, h1: Head, b: string, h2: Head)
    requires Reads(h, a, h1) && Reads(h1, b, h2)
    ensures Reads(h, a + b, h2)
  {
    StreamingIsOneShot(h, a, b);
  }

  lemma ReadsOne(h: Head, c: char)
    requires Open(h) && Open(Feed(h, c))
    ensures Reads(h, [c], Feed(h, c))
  {
    assert [c][1..] == [];
    assert Consume(Feed(h, c), []) == (Feed(h, c), 0);
  }

  function Saved(buf: string, save: int, which: int, s: string): string { if save == which then buf + s else buf }

  lemma ReadsPlain(h: Head, c: char, e: Edge)
    requires Open(h) && Delta(h.node, Upper(c)) == e && ResultOf(e.to).Nothing? && StateOf(e.to).Indeterminate?
    ensures Reads(h, [c], Head(h.info, e.to, Saved(h.buf, e.save, 1, [c]), Saved(h.buf2, e.save, 2, [c])))
  {
    FeedPlain(h, c, e);
    ReadsOne(h, c);
  }

  /** A run of characters that all lead to `n` and stay there. */
  lemma {:induction false} ReadsRun(h: Head, s: string, n: Node, save: int)
    requires Open(h) && StateOf(n).Indeterminate? && ResultOf(n).Nothing? && s != []
    requires Delta(h.node, Upper(s[0])) == Edge(n, save)
    requires forall j :: 0 < j < |s| ==> Delta(n, Upper(s[j])) == Edge(n, save)
    ensures Reads(h, s, Head(h.info, n, Saved(h.buf, save, 1, s), Saved(h.buf2, save, 2, s)))
    decreases |s|
  {
    var h1 := Head(h.info, n, Saved(h.buf, save, 1, [s[0]]), Saved(h.buf2, save, 2, [s[0]]));
    ReadsPlain(h, s[0], Edge(n, save));
    if |s| == 1 {
      assert s == [s[0]];
    } else {
      ReadsRun(h1, s[1..], n, save);
      assert s == [s[0]] + s[1..];
      Join3(h.buf, [s[0]], s[1..]);
      Join3(h.buf2, [s[0]], s[1..]);
      ReadsThen(h, [s[0]], h1, s[1..], Head(h.info, n, Saved(h.buf, save, 1, s), Saved(h.buf2, save, 2, s)));
    }
  }

  // ---- keywords

  lemma DeltaSpells(n: Node, p: string, c: char)
    requires Speller(n) && !Blank(c)
    ensures Delta(At(n, p), c) == Spell(n, Keywords(n), p + [c])
  {
    assert [] + [c] == [c];
  }

  /** In capitals. */
  predicate Plain(w: string) { forall j :: 0 <= j < |w| ==> Upper(w[j]) == w[j] && !Blank(w[j]) }

  /** Any spelling of a keyword, as far as case goes. */
  predicate Spells(w: string, word: string) { UpperAll(w) == word }

  /** The head after the first `i` letters of keyword `k`, spelt `w`. */
  function Spelt(h: Head, k: Keyword, w: string, i: nat): Head
    requires i <= |k.word| == |w|
  {
    Head(h.info, if i == |k.word| then k.end else At(h.node, k.word[..i]), Saved(h.buf, k.save, 1, w[..i]), h.buf2)
  }

  lemma SpellEdge(n: Node, k: nat, i: nat)
    requires Speller(n) && k < |Keywords(n)| && i < |Keywords(n)[k].word| && Plain(Keywords(n)[k].word)
    ensures var key := Keywords(n)[k];
            Delta(At(n, key.word[..i]), Upper(key.word[i]))
              == Edge(if i + 1 == |key.word| then key.end else Pre(n, key.word[..i + 1]), key.save)
  {
    var ks := Keywords(n);
    var c, p := ks[k].word[i], ks[k].word[..i];
    assert p + [c] == ks[k].word[..i + 1];
    DeltaSpells(n, p, c);
    KeywordsAreTidy(n);
    SpellPrefix(n, ks, k, p + [c]);
  }

  /** A step into a node with nothing to store. */
  lemma FeedPlain(h: Head, c: char, e: Edge)
    requires Delta(h.node, Upper(c)) == e && ResultOf(e.to).Nothing?
    ensures Feed(h, c) == Head(h.info, e.to, Saved(h.buf, e.save, 1, [c]), Saved(h.buf2, e.save, 2, [c]))
  {
  }

  lemma SpellStep(h: Head, k: nat, w: string, i: nat)
    requires Speller(h.node) && k < |Keywords(h.node)| && i < |Keywords(h.node)[k].word|
    requires var key := Keywords(h.node)[k];
             Plain(key.word) && ResultOf(key.end).Nothing? && 0 <= key.save <= 1 && Spells(w, key.word)
    ensures Feed(Spelt(h, Keywords(h.node)[k], w, i), w[i]) == Spelt(h, Keywords(h.node)[k], w, i + 1)
  {
    var key := Keywords(h.node)[k];
    var c, p := w[i], w[..i];
    SpellEdge(h.node, k, i);
    assert Upper(w[i]) == key.word[i] == Upper(key.word[i]);
    assert w[..i + 1] == p + [c];
    assert (h.buf + p) + [c] == h.buf + (p + [c]);
    FeedPlain(Spelt(h, key, w, i), c, Edge(if i + 1 == |key.word| then key.end else Pre(h.node, key.word[..i + 1]), key.save));
  }

  lemma ReadsOneMore(h: Head, w: string, i: nat, h1: Head, h2: Head)
    requires i < |w| && Reads(h, w[..i], h1) && Feed(h1, w[i]) == h2 && Open(h2)
    ensures Reads(h, w[..i + 1], h2)
  {
    ReadsOne(h1, w[i]);
    assert w[..i + 1] == w[..i] + [w[i]];
    ReadsThen(h, w[..i], h1, [w[i]], h2);
  }

  lemma {:induction false} ReadsPrefix(h: Head, k: nat, w: string, i: nat)
    requires Open(h) && Speller(h.node) && k < |Keywords(h.node)| && i <= |Keywords(h.node)[k].word|
    requires var key := Keywords(h.node)[k];
             && Plain(key.word) && key.word != [] && ResultOf(key.end).Nothing? && StateOf(key.end).Indeterminate?
             && 0 <= key.save <= 1 && Spells(w, key.word)
    ensures Reads(h, w[..i], Spelt(h, Keywords(h.node)[k], w, i))
    decreases i
  {
    var key := Keywords(h.node)[k];
    if i == 0 {
      assert h.buf + [] == h.buf;
    } else {
      ReadsPrefix(h, k, w, i - 1);
      SpellStep(h, k, w, i - 1);
      ReadsOneMore(h, w, i - 1, Spelt(h, key, w, i - 1), Spelt(h, key, w, i));
    }
  }

  /** A keyword is read in any spelling; if it is saved, it is saved as spelt. */
  lemma ReadsWord(h: Head, k: nat, w: string)
    requires Open(h) && Speller(h.node) && k < |Keywords(h.node)|
    requires var key := Keywords(h.node)[k];
             && Plain(key.word) && key.word != [] && ResultOf(key.end).Nothing? && StateOf(key.end).Indeterminate?
             && 0 <= key.save <= 1 && Spells(w, key.word)
    ensures var key := Keywords(h.node)[k];
            Reads(h, w, Head(h.info, key.end, Saved(h.buf, key.save, 1, w), h.buf2))
  {
    var key := Keywords(h.node)[k];
    ReadsPrefix(h, k, w, |key.word|);
    assert w[..|w|] == w;
  }

  // ---- the start line

  function VerbIndex(v: Verb): nat
  {
    match v
    case Get => 0
    case Post => 1
    case Put => 2
    case Delete => 3
    case Trace => 4
    case Connect => 5
    case HeadVerb => 6
    case Options => 7
    case Unknown => 8
  }

  lemma VerbIsKeyword(v: Verb)
    requires v != Unknown
    ensures Keywords(Root)[VerbIndex(v)] == Keyword(VerbName(v), MethodEnd, 1)
    ensures Plain(VerbName(v)) && VerbName(v) != [] && UpperAll(VerbName(v)) == VerbName(v) && VerbOf(VerbName(v)) == v
  {
    VerbSpelling(v);
    assert UpperAll(VerbName(v)) == VerbName(v);
  }

  lemma VerbSpelling(v: Verb)
    requires v != Unknown
    ensures Keywords(Root)[VerbIndex(v)] == Keyword(VerbName(v), MethodEnd, 1) && Plain(VerbName(v)) && VerbOf(VerbName(v)) == v
  {
  }

  lemma GraphUpper(c: char)
    requires Graph(c)
    ensures Graph(Upper(c)) && !Blank(Upper(c)) && (Upper(c) == ':' <==> c == ':') && Upper(c) != '\r'
  {
  }

  lemma ReadsVerb(junk: string, i: Info, w: string)
    requires i.ty.Request? && StartOk(i) && Spells(w, VerbName(i.verb))
    ensures Reads(Head(BLANK, Root, "", junk), w + " ", Head(BLANK.(ty := Request, verb := i.verb), MethodSp, "", ""))
  {
    var h0 := Head(BLANK, Root, "", junk);
    VerbIsKeyword(i.verb);
    ReadsWord(h0, VerbIndex(i.verb), w);
    var h1 := Head(BLANK, MethodEnd, w, junk);
    assert "" + w == w;
    VerbBlank(h1, i.verb);
    ReadsThen(h0, w, h1, " ", Head(BLANK.(ty := Request, verb := i.verb), MethodSp, "", ""));
  }

  lemma VerbBlank(h: Head, v: Verb)
    requires h.node.MethodEnd? && h.buf != "" && VerbOf(UpperAll(h.buf)) == v
    ensures Reads(h, " ", Head(h.info.(ty := Request, verb := v), MethodSp, "", ""))
  {
    ReadsOne(h, ' ');
  }

  lemma ReadsPath(h: Head, path: string)
    requires h.node.MethodSp? && h.buf == "" && h.buf2 == "" && path != [] && GraphAll(path)
    ensures Reads(h, path + " ", Head(h.info.(path := path), PathSp, "", ""))
  {
    forall j | 0 <= j < |path| ensures Delta(PathInfo, Upper(path[j])) == Edge(PathInfo, 1) { GraphUpper(path[j]); }
    GraphUpper(path[0]);
    ReadsRun(h, path, PathInfo, 1);
    assert "" + path == path;
    var h1 := Head(h.info, PathInfo, path, "");
    ReadsOne(h1, ' ');
    ReadsThen(h, path, h1, " ", Head(h.info.(path := path), PathSp, "", ""));
  }

  /** A number may be read from `m` into `n`: every digit leads there, and stays there. */
  predicate NumberNodes(m: Node, n: Node)
  {
    (m.StatusSp? && n.CodeInfo?) || (m.MajorInfo? && n.MajorInfo?) || (m.Major? && n.MinorInfo?)
  }

  predicate DigitEdge(m: Node, n: Node, c: char)
  {
    Delta(m, Upper(c)) == Edge(n, 1) && Delta(n, Upper(c)) == Edge(n, 1)
  }

  lemma DigitLinks(m: Node, n: Node, c: char)
    requires NumberNodes(m, n) && '0' <= c <= '9'
    ensures DigitEdge(m, n, c)
  {
  }

  lemma DigitChain(m: Node, n: Node, s: string)
    requires NumberNodes(m, n) && Digits(s)
    ensures forall j :: 0 <= j < |s| ==> DigitEdge(m, n, s[j])
  {
    forall j | 0 <= j < |s| ensures DigitEdge(m, n, s[j]) { DigitLinks(m, n, s[j]); }
  }

  lemma NumberNodesOpen(h: Head, n: Node)
    requires NumberNodes(h.node, n)
    ensures Open(h) && StateOf(n).Indeterminate? && ResultOf(n).Nothing?
  {
  }

  lemma ReadsRunOfDigits(h: Head, n: Node, s: string)
    requires h.buf == "" && Open(h) && StateOf(n).Indeterminate? && ResultOf(n).Nothing? && s != []
    requires forall j :: 0 <= j < |s| ==> DigitEdge(h.node, n, s[j])
    ensures Reads(h, s, Head(h.info, n, s, h.buf2))
  {
    assert DigitEdge(h.node, n, s[0]);
    forall j | 0 < j < |s| ensures Delta(n, Upper(s[j])) == Edge(n, 1) { assert DigitEdge(h.node, n, s[j]); }
    ReadsRun(h, s, n, 1);
    assert "" + s == s;
  }

  lemma ReadsDigits(h: Head, n: Node, num: nat)
    requires h.buf == "" && NumberNodes(h.node, n)
    ensures Reads(h, ToStringNat(num), Head(h.info, n, ToStringNat(num), h.buf2)) && Number(ToStringNat(num)) == num
  {
    AtoiToString(num);
    DigitChain(h.node, n, ToStringNat(num));
    NumberNodesOpen(h, n);
    ReadsRunOfDigits(h, n, ToStringNat(num));
  }

  lemma StatusIsKeyword()
    ensures Keywords(Root)[8] == Keyword("STATUS", StatusEnd, 0) && Plain("STATUS")
  {
  }

  lemma StatusBlank(h: Head)
    requires h.node.StatusEnd?
    ensures Reads(h, [' '], h.(node := StatusSp))
  {
    ReadsOne(h, ' ');
  }

  lemma ReadsStatusWord(h: Head, k: nat, word: string, w: string)
    requires h.node.Root? && k < |Keywords(h.node)| && Keywords(h.node)[k] == Keyword(word, StatusEnd, 0) && Plain(word) && word != []
    requires Spells(w, word)
    ensures Reads(h, w + [' '], h.(node := StatusSp))
  {
    var h1, h2 := h.(node := StatusEnd), h.(node := StatusSp);
    ReadsWord(h, k, w);
    StatusBlank(h1);
    ReadsThen(h, w, h1, [' '], h2);
  }

  lemma ReadsCode(junk: string, code: nat)
    ensures Reads(Head(BLANK, StatusSp, "", junk), ToStringNat(code) + " ", Head(BLANK.(ty := Response, status := code), CodeSp, "", ""))
  {
    var h0, s := Head(BLANK, StatusSp, "", junk), ToStringNat(code);
    ReadsDigits(h0, CodeInfo, code);
    var h1 := Head(BLANK, CodeInfo, s, junk);
    ReadsOne(h1, ' ');
    ReadsThen(h0, s, h1, " ", Head(BLANK.(ty := Response, status := code), CodeSp, "", ""));
  }

  function AfterStart(i: Info): Head
  {
    if i.ty.Request? then Head(BLANK.(ty := Request, verb := i.verb, path := i.path), PathSp, "", "")
    else Head(BLANK.(ty := Response, status := i.status), CodeSp, "", "")
  }

  lemma ReadsStart(junk: string, i: Info, w: string)
    requires StartOk(i) && Spells(w, StartWord(i))
    ensures Reads(Head(BLANK, Root, "", junk), PrintStartAs(i, w), AfterStart(i))
  {
    var h0 := Head(BLANK, Root, "", junk);
    if i.ty.Request? {
      var h1 := Head(BLANK.(ty := Request, verb := i.verb), MethodSp, "", "");
      ReadsVerb(junk, i, w);
      ReadsPath(h1, i.path);
      ReadsThen(h0, w + " ", h1, i.path + " ", AfterStart(i));
      Join3(w + " ", i.path, " ");
    } else {
      StatusIsKeyword();
      ReadsStatusWord(h0, 8, Keywords(Root)[8].word, w);
      ReadsCode(junk, i.status);
      ReadsThen(h0, w + " ", Head(BLANK, StatusSp, "", junk), ToStringNat(i.status) + " ", AfterStart(i));
      Join3(w + " ", ToStringNat(i.status), " ");
    }
  }

  lemma Join3(a: string, b: string, c: string)
    ensures a + (b + c) == a + b + c
  {
  }

  // ---- the version

  lemma ReadsSlash(h: Head, word: string, w: string)
    requires (h.node.PathSp? || h.node.CodeSp?) && Keywords(h.node)[0] == Keyword(word, MajorInfo, 0) && Plain(word) && word != []
    requires Spells(w, word)
    ensures Reads(h, w, h.(node := MajorInfo))
  {
    ReadsWord(h, 0, w);
  }

  lemma ReadsMajor(h: Head, n: nat)
    requires h.node.MajorInfo? && h.buf == ""
    ensures Reads(h, ToStringNat(n) + ".", Head(h.info.(major := n), Major, "", ""))
  {
    var s := ToStringNat(n);
    ReadsDigits(h, MajorInfo, n);
    var h1 := Head(h.info, MajorInfo, s, h.buf2);
    ReadsOne(h1, '.');
    ReadsThen(h, s, h1, ".", Head(h.info.(major := n), Major, "", ""));
  }

  lemma ReadsMinor(h: Head, n: nat)
    requires h.node.Major? && h.buf == ""
    ensures Reads(h, ToStringNat(n) + "\r", Head(h.info.(minor := n), Minor, "", ""))
  {
    var s := ToStringNat(n);
    ReadsDigits(h, MinorInfo, n);
    var h1 := Head(h.info, MinorInfo, s, h.buf2);
    ReadsOne(h1, '\r');
    ReadsThen(h, s, h1, "\r", Head(h.info.(minor := n), Minor, "", ""));
  }

  lemma ReadsNewline(h: Head)
    requires (h.node.Minor? || h.node.Sr?) && h.buf == "" && h.buf2 == ""
    ensures Reads(h, "\n", h.(node := Sn))
  {
    ReadsOne(h, '\n');
  }

  lemma SlashIsKeyword(n: Node)
    requires n.PathSp? || n.CodeSp?
    ensures Keywords(n)[0] == Keyword("HTTP/", MajorInfo, 0) && Plain("HTTP/")
  {
  }

  lemma VersionPieces(a: string, b: string, c: string)
    ensures (a + (b + ".")) + (c + "\r") + "\n" == a + b + "." + c + "\r\n"
  {
  }

  lemma ReadsVersion(h: Head, i: Info, word: string, w: string)
    requires (h.node.PathSp? || h.node.CodeSp?) && h.buf == "" && h.buf2 == "" && i.major >= 0 && i.minor >= 0
    requires Keywords(h.node)[0] == Keyword(word, MajorInfo, 0) && Plain(word) && word != [] && Spells(w, word)
    ensures Reads(h, w + ToString(i.major) + "." + ToString(i.minor) + "\r\n",
                  Head(h.info.(major := i.major, minor := i.minor), Sn, "", ""))
  {
    var a, b := ToStringNat(i.major) + ".", ToStringNat(i.minor) + "\r";
    var h1 := h.(node := MajorInfo);
    var h2 := Head(h.info.(major := i.major), Major, "", "");
    var h3 := Head(h.info.(major := i.major, minor := i.minor), Minor, "", "");
    ReadsSlash(h, word, w);
    ReadsMajor(h1, i.major);
    ReadsThen(h, w, h1, a, h2);
    ReadsMinor(h2, i.minor);
    ReadsThen(h, w + a, h2, b, h3);
    ReadsNewline(h3);
    ReadsThen(h, w + a + b, h3, "\n", h3.(node := Sn));
    VersionPieces(w, ToStringNat(i.major), ToStringNat(i.minor));
  }

  // ---- the fields

  lemma ReadsKey(h: Head, key: string)
    requires h.node.Sn? && h.buf == "" && KeyOk(key)
    ensures Reads(h, key, Head(h.info, KeyInfo, key, h.buf2))
  {
    GraphUpper(key[0]);
    forall j | 0 < j < |key| ensures Delta(KeyInfo, Upper(key[j])) == Edge(KeyInfo, 1) { GraphUpper(key[j]); }
    ReadsRun(h, key, KeyInfo, 1);
    assert "" + key == key;
  }

  lemma ReadsColon(h: Head)
    requires h.node.KeyInfo?
    ensures Reads(h, ": ", h.(node := KvSpace2))
  {
    var h1 := h.(node := KvSplit);
    ReadsOne(h, ':');
    ReadsOne(h1, ' ');
    ReadsThen(h, [':'], h1, [' '], h.(node := KvSpace2));
    assert [':'] + [' '] == ": ";
  }

  lemma ReadsValue(h: Head, value: string)
    requires h.node.KvSpace2? && h.buf2 == "" && ValueOk(value)
    ensures Reads(h, value, Head(h.info, ValueInfo, h.buf, value))
  {
    GraphUpper(value[0]);
    forall j | 0 < j < |value| ensures Delta(ValueInfo, Upper(value[j])) == Edge(ValueInfo, 2) { GraphUpper(value[j]); }
    ReadsRun(h, value, ValueInfo, 2);
    assert "" + value == value;
  }

  lemma ReadsReturn(h: Head)
    requires h.node.ValueInfo? && h.buf != ""
    ensures Reads(h, "\r", Head(h.info.(fields := Insert(h.info.fields, Field(h.buf, h.buf2))), Sr, "", ""))
  {
    ReadsOne(h, '\r');
  }

  lemma FieldPieces(a: string, b: string)
    ensures a + ": " + b + "\r" + "\n" == a + ": " + b + "\r\n"
  {
  }

  lemma ReadsField(h: Head, f: Field)
    requires h.node.Sn? && h.buf == "" && h.buf2 == "" && KeyOk(f.key) && ValueOk(f.value)
    ensures Reads(h, f.key + ": " + f.value + "\r\n", h.(info := h.info.(fields := Insert(h.info.fields, f))))
  {
    var h1, h2, h3 := Head(h.info, KeyInfo, f.key, ""), Head(h.info, KvSpace2, f.key, ""), Head(h.info, ValueInfo, f.key, f.value);
    var h4 := Head(h.info.(fields := Insert(h.info.fields, f)), Sr, "", "");
    ReadsKey(h, f.key);
    ReadsColon(h1);
    ReadsThen(h, f.key, h1, ": ", h2);
    ReadsValue(h2, f.value);
    ReadsThen(h, f.key + ": ", h2, f.value, h3);
    ReadsReturn(h3);
    ReadsThen(h, f.key + ": " + f.value, h3, "\r", h4);
    ReadsNewline(h4);
    ReadsThen(h, f.key + ": " + f.value + "\r", h4, "\n", h4.(node := Sn));
    FieldPieces(f.key, f.value);
  }

  lemma {:induction false} ReadsFields(h: Head, fs: seq<Field>)
    requires h.node.Sn? && h.buf == "" && h.buf2 == "" && FieldsOk(fs) && Sorted(h.info.fields + fs)
    ensures Reads(h, PrintFields(fs), h.(info := h.info.(fields := h.info.fields + fs)))
    decreases |fs|
  {
    var was := h.info.fields;
    if fs == [] {
      assert was + [] == was;
    } else {
      var f := fs[0];
      forall j | 0 <= j < |was| ensures InOrder(was[j], f) { assert InOrder((was + fs)[j], (was + fs)[|was|]); }
      InsertLast(was, f);
      var h1 := h.(info := h.info.(fields := was + [f]));
      ReadsField(h, f);
      assert (was + [f]) + fs[1..] == was + fs;
      ReadsFields(h1, fs[1..]);
      ReadsThen(h, f.key + ": " + f.value + "\r\n", h1, PrintFields(fs[1..]), h.(info := h.info.(fields := was + fs)));
    }
  }

  // ---- the whole head

  function Restored(i: Info): Info { AfterStart(i).info.(major := i.major, minor := i.minor, fields := i.fields) }

  /** The head after the start line and the version. */
  function AfterVersion(i: Info): Head { Head(AfterStart(i).info.(major := i.major, minor := i.minor), Sn, "", "") }

  lemma ReadsVersionAs(i: Info, http: string)
    requires i.major >= 0 && i.minor >= 0 && Spells(http, "HTTP/")
    ensures Reads(AfterStart(i), PrintVersionAs(i, http), AfterVersion(i))
  {
    var h1 := AfterStart(i);
    SlashIsKeyword(h1.node);
    ReadsVersion(h1, i, Keywords(h1.node)[0].word, http);
  }

  lemma ReadsAllFields(i: Info)
    requires FieldsOk(i.fields) && Sorted(i.fields)
    ensures Reads(AfterVersion(i), PrintFields(i.fields), Head(Restored(i), Sn, "", ""))
  {
    assert [] + i.fields == i.fields;
    ReadsFields(AfterVersion(i), i.fields);
  }

  lemma ReadsThree(h0: Head, a: string, h1: Head, b: string, h2: Head, c: string, h3: Head)
    requires Reads(h0, a, h1) && Reads(h1, b, h2) && Reads(h2, c, h3)
    ensures Reads(h0, a + b + c, h3)
  {
    ReadsThen(h0, a, h1, b, h2);
    ReadsThen(h0, a + b, h2, c, h3);
  }

  lemma ReadsBody(junk: string, i: Info, w: string, http: string)
    requires Printable(i) && Sorted(i.fields) && Spells(w, StartWord(i)) && Spells(http, "HTTP/")
    ensures Reads(Head(BLANK, Root, "", junk), PrintStartAs(i, w) + PrintVersionAs(i, http) + PrintFields(i.fields),
                  Head(Restored(i), Sn, "", ""))
  {
    ReadsStart(junk, i, w);
    ReadsVersionAs(i, http);
    ReadsAllFields(i);
    ReadsThree(Head(BLANK, Root, "", junk), PrintStartAs(i, w), AfterStart(i), PrintVersionAs(i, http), AfterVersion(i),
               PrintFields(i.fields), Head(Restored(i), Sn, "", ""));
  }

  lemma LastLine(h: Head)
    requires h.node.Sn?
    ensures Consume(h, "\r\n") == (h.(node := EndSn), 2)
  {
    var h1 := h.(node := EndSr);
    assert Feed(h, '\r') == h1 && Feed(h1, '\n') == h.(node := EndSn);
    assert "\r\n"[1..] == "\n";
  }

  lemma PrintedAsIsParsed(h: Head, i: Info, w: string, http: string)
    requires Printable(i) && Sorted(i.fields) && Spells(w, StartWord(i)) && Spells(http, "HTTP/")
    ensures Parse(h, PrintAs(i, w, http)) == (Head(Restored(i), EndSn, "", ""), |PrintAs(i, w, http)|)
  {
    var h0, h1 := Clear(h), Head(Restored(i), Sn, "", "");
    var body := PrintStartAs(i, w) + PrintVersionAs(i, http) + PrintFields(i.fields);
    ReadsBody(h.buf, i, w, http);
    ReadsThenDone(h0, body, h1, "\r\n");
  }

  lemma WordsAreCapitals(i: Info)
    requires StartOk(i)
    ensures Spells(StartWord(i), StartWord(i)) && Spells("HTTP/", "HTTP/")
  {
    if i.ty.Request? { VerbIsKeyword(i.verb); }
    StatusIsKeyword();
    SlashIsKeyword(PathSp);
    assert UpperAll("STATUS") == "STATUS" && UpperAll("HTTP/") == "HTTP/";
  }

  /** Parsing undoes printing, whatever the object held before. */
  lemma PrintedIsParsed(h: Head, i: Info)
    requires Printable(i) && Sorted(i.fields)
    ensures Parse(h, Print(i)) == (Head(Restored(i), EndSn, "", ""), |Print(i)|)
    ensures Same(Restored(i), i)
  {
    WordsAreCapitals(i);
    PrintIsPrintAs(i);
    PrintedAsIsParsed(h, i, StartWord(i), "HTTP/");
  }

  lemma CaselessSpells(w: string, word: string)
    requires Caseless(w, word) && Spells(word, word)
    ensures Spells(w, word) && |w| == |word|
  {
    CaselessIsUpper(w, word);
  }

  lemma SameLength(i: Info, w: string, word: string, http: string, slash: string)
    requires |w| == |word| && |http| == |slash|
    ensures |PrintAs(i, w, http)| == |PrintAs(i, word, slash)|
  {
  }

  /** The case of the method, of STATUS and of HTTP in a head makes no difference to the result of parsing it. */
  lemma CaseMakesNoDifference(h: Head, i: Info, w: string, http: string)
    requires Printable(i) && Sorted(i.fields) && Caseless(w, StartWord(i)) && Caseless(http, "HTTP/")
    ensures Parse(h, PrintAs(i, w, http)) == Parse(h, Print(i))
  {
    WordsAreCapitals(i);
    PrintIsPrintAs(i);
    SpellingMakesNoDifference(h, i, w, StartWord(i), http, "HTTP/");
  }

  lemma SpellingMakesNoDifference(h: Head, i: Info, w: string, word: string, http: string, slash: string)
    requires Printable(i) && Sorted(i.fields) && word == StartWord(i) && slash == "HTTP/"
    requires Spells(word, word) && Spells(slash, slash) && Caseless(w, word) && Caseless(http, slash)
    ensures Parse(h, PrintAs(i, w, http)) == Parse(h, PrintAs(i, word, slash))
  {
    CaselessSpells(w, word);
    CaselessSpells(http, slash);
    SameLength(i, w, word, http, slash);
    PrintedAsIsParsed(h, i, w, http);
    PrintedAsIsParsed(h, i, word, slash);
  }

  lemma ReadsThenDone(h: Head, body: string, h1: Head, last: string)
    requires Reads(h, body, h1) && h1.node.Sn? && last == "\r\n"
    ensures Consume(h, body + last) == (h1.(node := EndSn), |body| + 2)
  {
    StreamingIsOneShot(h, body, last);
    LastLine(h1);
  }

  // ---------------------------------------------------------------- what parsing can produce

  /** Nothing has been stored yet. */
  predicate Early(n: Node)
  {
    n.Root? || n.MethodEnd? || n.StatusEnd? || n.StatusSp? || n.CodeInfo? || (n.Pre? && n.from.Root?)
  }

  /** The letters of a keyword read so far, if they are being saved. */
  predicate WordOk(p: string, buf: string)
  {
    var e := Spell(Root, Keywords(Root), p);
    e != DEAD && (if e.save == 1 then UpperAll(buf) == p else buf == "" && e.save == 0)
  }

  predicate EarlyOk(h: Head)
  {
    && h.info == BLANK
    && match h.node
       case Root => h.buf == ""
       case Pre(_, p) => p != [] && WordOk(p, h.buf)
       case MethodEnd => VerbOf(UpperAll(h.buf)) != Unknown && h.buf != ""
       case CodeInfo => h.buf != ""
       case _ => h.buf == ""
  }

  /** Once the start line is stored: what the buffers hold at each node. */
  predicate LateOk(h: Head)
  {
    match h.node
    case MethodSp => h.info.ty.Request? && h.info.verb != Unknown && h.buf == "" && h.buf2 == ""
    case PathInfo => h.info.ty.Request? && h.info.verb != Unknown && h.buf != "" && GraphAll(h.buf) && h.buf2 == ""
    case MajorInfo => StartOk(h.info) && h.buf2 == ""
    case MinorInfo => StartOk(h.info) && h.buf != "" && h.buf2 == ""
    case KeyInfo => StartOk(h.info) && KeyOk(h.buf) && h.buf2 == ""
    case KvSpace1 => StartOk(h.info) && KeyOk(h.buf) && h.buf2 == ""
    case KvSplit => StartOk(h.info) && KeyOk(h.buf) && h.buf2 == ""
    case KvSpace2 => StartOk(h.info) && KeyOk(h.buf) && h.buf2 == ""
    case ValueInfo => StartOk(h.info) && KeyOk(h.buf) && ValueOk(h.buf2)
    case _ => StartOk(h.info) && h.buf == "" && h.buf2 == ""
  }

  ghost predicate Good(h: Head)
  {
    h.info.major >= 0 && h.info.minor >= 0 && FieldsOk(h.info.fields) && Sorted(h.info.fields)
      && (h.node.Err? || (if Early(h.node) then EarlyOk(h) else LateOk(h)))
  }

  /** The next letter of a keyword is saved if and only if the letters before it were. */
  lemma SpellSavesAlike(p: string, c: char) returns (k: nat)
    requires p != [] && Spell(Root, Keywords(Root), p + [c]) != DEAD
    ensures k < |Keywords(Root)| && p + [c] <= Keywords(Root)[k].word
    ensures var key := Keywords(Root)[k];
            Spell(Root, Keywords(Root), p + [c]) == Edge(if p + [c] == key.word then key.end else Pre(Root, p + [c]), key.save)
    ensures Spell(Root, Keywords(Root), p).save == Spell(Root, Keywords(Root), p + [c]).save
  {
    var ks := Keywords(Root);
    k := SpellHit(Root, ks, p + [c]);
    RootIsTidy();
    assert p <= p + [c];
    SpellPrefix(Root, ks, k, p);
  }

  lemma UpperSnoc(s: string, c: char)
    ensures UpperAll(s + [c]) == UpperAll(s) + [Upper(c)]
  {
  }

  lemma VerbOrStatus(k: nat)
    requires k < |Keywords(Root)|
    ensures var key := Keywords(Root)[k];
            (key.save == 1 && key.end == MethodEnd && VerbOf(key.word) != Unknown && key.word != []) || (key.save == 0 && key.end == StatusEnd)
  {
  }

  lemma LongKeywords(k: nat)
    requires k < |Keywords(Root)|
    ensures |Keywords(Root)[k].word| > 1
  {
  }

  lemma RootGood(h: Head, c: char)
    requires Good(h) && h.node.Root?
    ensures Good(Feed(h, c))
  {
    var u := Upper(c);
    if Spell(Root, Keywords(Root), [u]) != DEAD {
      var k := SpellHit(Root, Keywords(Root), [u]);
      VerbOrStatus(k);
      LongKeywords(k);
      FirstLetterGood(h, c, Keywords(Root)[k].save);
    } else {
      FeedPlain(h, c, DEAD);
    }
  }

  lemma FirstLetterGood(h: Head, c: char, save: int)
    requires Good(h) && h.node.Root? && 0 <= save <= 1
    requires Delta(Root, Upper(c)) == Edge(Pre(Root, [Upper(c)]), save)
    ensures Good(Feed(h, c))
  {
    assert h.buf + [c] == [c] && UpperAll([c]) == [Upper(c)];
    FeedPlain(h, c, Edge(Pre(Root, [Upper(c)]), save));
  }

  lemma WordGood(h: Head, c: char)
    requires Good(h) && h.node.Pre? && h.node.from.Root?
    ensures Good(Feed(h, c))
  {
    var q := h.node.p + [Upper(c)];
    var e := Spell(Root, Keywords(Root), q);
    if e != DEAD { WordNext(h.node.p, h.buf, c, e); }
    assert ResultOf(e.to).Nothing?;
    FeedPlain(h, c, e);
  }

  /** One more letter of a keyword: either a longer prefix of it, or its end. */
  lemma WordNext(p: string, buf: string, c: char, e: Edge)
    requires p != [] && WordOk(p, buf) && e == Spell(Root, Keywords(Root), p + [Upper(c)]) && e != DEAD
    ensures var buf' := Saved(buf, e.save, 1, [c]);
            match e.to
            case Pre(from, q) => from.Root? && q != [] && WordOk(q, buf')
            case MethodEnd => VerbOf(UpperAll(buf')) != Unknown && buf' != ""
            case StatusEnd => buf' == ""
            case _ => false
    ensures 0 <= e.save <= 1
  {
    var k := SpellSavesAlike(p, Upper(c));
    VerbOrStatus(k);
    UpperSnoc(buf, c);
  }

  lemma MethodEndGood(h: Head, c: char)
    requires Good(h) && h.node.MethodEnd?
    ensures Good(Feed(h, c))
  {
  }

  /** Blanks before the status code, and its digits. */
  lemma StatusSpGood(h: Head, c: char)
    requires Good(h) && (h.node.StatusEnd? || h.node.StatusSp?)
    ensures Good(Feed(h, c))
  {
    FeedPlain(h, c, Delta(h.node, Upper(c)));
  }

  lemma CodeGood(h: Head, c: char)
    requires Good(h) && h.node.CodeInfo?
    ensures Good(Feed(h, c))
  {
  }

  lemma StatusGood(h: Head, c: char)
    requires Good(h) && (h.node.MethodEnd? || h.node.StatusEnd? || h.node.StatusSp? || h.node.CodeInfo?)
    ensures Good(Feed(h, c))
  {
    match h.node
    case MethodEnd => MethodEndGood(h, c);
    case CodeInfo => CodeGood(h, c);
    case _ => StatusSpGood(h, c);
  }

  lemma UpperGraph(c: char)
    requires Graph(Upper(c))
    ensures Graph(c) && (c == ':' <==> Upper(c) == ':')
  {
  }

  lemma GrowsGood(s: string, c: char)
    requires Graph(c)
    ensures GraphAll(s) ==> ValueOk(s + [c])
    ensures KeyOk(s) && c != ':' ==> KeyOk(s + [c])
    ensures KeyOk([c])
  {
  }

  lemma PathLetterGood(h: Head, c: char)
    requires Good(h) && (h.node.MethodSp? || h.node.PathInfo?) && Graph(Upper(c))
    ensures Good(Feed(h, c))
  {
    UpperGraph(c);
    GrowsGood(h.buf, c);
    GraphUpper(c);
    FeedPlain(h, c, Edge(PathInfo, 1));
  }

  lemma PathGood(h: Head, c: char)
    requires Good(h) && (h.node.MethodSp? || h.node.PathInfo?)
    ensures Good(Feed(h, c))
  {
    if Graph(Upper(c)) { PathLetterGood(h, c); }
  }

  lemma BlankGood(h: Head, c: char)
    requires Good(h) && (h.node.PathSp? || h.node.CodeSp?)
    ensures Good(Feed(h, c))
  {
    var n, q := h.node, [Upper(c)];
    if !Blank(Upper(c)) && Spell(n, Keywords(n), q) != DEAD {
      var k := SpellHit(n, Keywords(n), q);
      FeedPlain(h, c, Spell(n, Keywords(n), q));
    }
  }

  lemma SlashGood(h: Head, c: char)
    requires Good(h) && h.node.Pre? && !h.node.from.Root?
    ensures Good(Feed(h, c))
  {
    var n, q := h.node.from, h.node.p + [Upper(c)];
    if Spell(n, Keywords(n), q) != DEAD {
      var k := SpellHit(n, Keywords(n), q);
      FeedPlain(h, c, Spell(n, Keywords(n), q));
    }
  }

  lemma MajorInfoGood(h: Head, c: char)
    requires Good(h) && h.node.MajorInfo?
    ensures Good(Feed(h, c))
  {
    var u := Upper(c);
    if u != '.' { FeedPlain(h, c, if Digit(u) then Edge(MajorInfo, 1) else DEAD); }
  }

  lemma MajorGood(h: Head, c: char)
    requires Good(h) && h.node.Major?
    ensures Good(Feed(h, c))
  {
    FeedPlain(h, c, if Digit(Upper(c)) then Edge(MinorInfo, 1) else DEAD);
  }

  lemma MinorInfoGood(h: Head, c: char)
    requires Good(h) && h.node.MinorInfo?
    ensures Good(Feed(h, c))
  {
    var u := Upper(c);
    if u != '\r' { FeedPlain(h, c, if Digit(u) then Edge(MinorInfo, 1) else DEAD); }
  }

  lemma MinorGood(h: Head, c: char)
    requires Good(h) && h.node.Minor?
    ensures Good(Feed(h, c))
  {
    FeedPlain(h, c, if Upper(c) == '\n' then Edge(Sn, 0) else DEAD);
  }

  lemma LineGood(h: Head, c: char)
    requires Good(h) && (h.node.Sr? || h.node.EndSr? || h.node.EndSn?)
    ensures Good(Feed(h, c))
  {
    FeedPlain(h, c, Delta(h.node, Upper(c)));
  }

  lemma SnGood(h: Head, c: char)
    requires Good(h) && h.node.Sn?
    ensures Good(Feed(h, c))
  {
    var u := Upper(c);
    if Graph(u) {
      UpperGraph(c);
      GrowsGood(h.buf, c);
      assert h.buf + [c] == [c];
    }
    FeedPlain(h, c, if u == '\r' then Edge(EndSr, 0) else if Graph(u) then Edge(KeyInfo, 1) else DEAD);
  }

  lemma KeyGood(h: Head, c: char)
    requires Good(h) && h.node.KeyInfo?
    ensures Good(Feed(h, c))
  {
    var u := Upper(c);
    if Graph(u) {
      UpperGraph(c);
      GrowsGood(h.buf, c);
    }
    FeedPlain(h, c, if u == ':' then Edge(KvSplit, 0) else if Blank(u) then Edge(KvSpace1, 0) else if Graph(u) then Edge(KeyInfo, 1) else DEAD);
  }

  lemma SpaceGood(h: Head, c: char)
    requires Good(h) && h.node.KvSpace1?
    ensures Good(Feed(h, c))
  {
    var u := Upper(c);
    FeedPlain(h, c, if u == ':' then Edge(KvSplit, 0) else if Blank(u) then Edge(KvSpace1, 0) else DEAD);
  }

  lemma InsertGood(fs: seq<Field>, f: Field)
    requires FieldsOk(fs) && Sorted(fs) && KeyOk(f.key) && ValueOk(f.value)
    ensures FieldsOk(Insert(fs, f)) && Sorted(Insert(fs, f))
  {
    InsertSorted(fs, f);
    var i := InsertPlace(fs, f);
  }

  lemma SplitGood(h: Head, c: char)
    requires Good(h) && (h.node.KvSplit? || h.node.KvSpace2?)
    ensures Good(Feed(h, c))
  {
    var u := Upper(c);
    if Graph(u) {
      UpperGraph(c);
      GrowsGood(h.buf2, c);
    }
    FeedPlain(h, c, if Blank(u) then Edge(KvSpace2, 0) else if Graph(u) then Edge(ValueInfo, 2) else DEAD);
  }

  lemma ValueGood(h: Head, c: char)
    requires Good(h) && h.node.ValueInfo?
    ensures Good(Feed(h, c))
  {
    var u := Upper(c);
    if u == '\r' {
      InsertGood(h.info.fields, Field(h.buf, h.buf2));
    } else if Graph(u) {
      UpperGraph(c);
      GrowsGood(h.buf2, c);
      FeedPlain(h, c, Edge(ValueInfo, 2));
    }
  }

  lemma FeedGood(h: Head, c: char)
    requires Good(h)
    ensures Good(Feed(h, c))
  {
    match h.node
    case Err =>
    case Root => RootGood(h, c);
    case Pre(from, p) => if from.Root? { WordGood(h, c); } else { SlashGood(h, c); }
    case MethodEnd => StatusGood(h, c);
    case StatusEnd => StatusGood(h, c);
    case StatusSp => StatusGood(h, c);
    case CodeInfo => StatusGood(h, c);
    case MethodSp => PathGood(h, c);
    case PathInfo => PathGood(h, c);
    case PathSp => BlankGood(h, c);
    case CodeSp => BlankGood(h, c);
    case MajorInfo => MajorInfoGood(h, c);
    case Major => MajorGood(h, c);
    case MinorInfo => MinorInfoGood(h, c);
    case Minor => MinorGood(h, c);
    case KvSplit => SplitGood(h, c);
    case KvSpace2 => SplitGood(h, c);
    case ValueInfo => ValueGood(h, c);
    case Sn => SnGood(h, c);
    case KeyInfo => KeyGood(h, c);
    case KvSpace1 => SpaceGood(h, c);
    case _ => LineGood(h, c);
  }

  lemma {:induction false} ConsumeGood(h: Head, s: string)
    requires Good(h)
    ensures Good(Consume(h, s).0)
    decreases |s|
  {
    if s != [] {
      FeedGood(h, s[0]);
      if Open(Feed(h, s[0])) { ConsumeGood(Feed(h, s[0]), s[1..]); }
    }
  }

  /** Whatever is parsed without error can be printed, and its fields are in order. */
  lemma ParsedIsPrintable(h: Head, s: string)
    requires Parse(h, s).1 != -1
    ensures Printable(Parse(h, s).0.info) && Sorted(Parse(h, s).0.info.fields)
  {
    ConsumeGood(Clear(h), s);
  }

  /**
    Parsing what `to_string` prints consumes all of it and gives the same head back if and only
    if the head is a request with a known method and a path, or a response with a non-negative
    status; its versions are not negative; path, keys and values are not empty and consist of the
    bytes 33 to 126; and no key has a colon behind its first byte.
  */
  lemma RoundTripExactly(h: Head, i: Info)
    requires Sorted(i.fields)
    ensures (Parse(h, Print(i)).1 == |Print(i)| && Same(Parse(h, Print(i)).0.info, i)) <==> Printable(i)
  {
    var (h', n) := Parse(h, Print(i));
    if Printable(i) { PrintedIsParsed(h, i); }
    else if n == |Print(i)| { ParsedIsPrintable(h, Print(i)); }
  }

  // ---------------------------------------------------------------- parsing starts afresh

  /** The same but for what an earlier parse left in the second buffer. */
  predicate Alike(a: Head, b: Head)
  {
    a.info == b.info && a.node == b.node && a.buf == b.buf && (!Early(a.node) && !a.node.Err? ==> a.buf2 == b.buf2)
  }

  lemma FeedAlike(a: Head, b: Head, c: char)
    requires Good(a) && Alike(a, b)
    ensures Alike(Feed(a, c), Feed(b, c))
  {
    if a.node.Root? || (a.node.Pre? && a.node.from.Root?) {
      WordAlike(a, b, c);
    } else if Early(a.node) {
      StatusAlike(a, b, c);
    } else if !a.node.Err? {
      assert a == b;
    }
  }

  /** A letter of a keyword leads to a node without result, and is not saved in the second buffer. */
  lemma WordEdge(q: string, e: Edge)
    requires q != [] && e == Spell(Root, Keywords(Root), q)
    ensures ResultOf(e.to).Nothing? && e.save != 2 && (Early(e.to) || e.to.Err?)
  {
    if e != DEAD {
      var k := SpellHit(Root, Keywords(Root), q);
      VerbOrStatus(k);
    }
  }

  lemma WordAlike(a: Head, b: Head, c: char)
    requires Good(a) && Alike(a, b) && (a.node.Root? || (a.node.Pre? && a.node.from.Root?))
    ensures Alike(Feed(a, c), Feed(b, c))
  {
    var q := (if a.node.Root? then [] else a.node.p) + [Upper(c)];
    var e := Spell(Root, Keywords(Root), q);
    assert [] + [Upper(c)] == [Upper(c)];
    WordEdge(q, e);
    FeedPlain(a, c, e);
    FeedPlain(b, c, e);
  }

  lemma StatusAlike(a: Head, b: Head, c: char)
    requires Good(a) && Alike(a, b) && (a.node.MethodEnd? || a.node.StatusEnd? || a.node.StatusSp? || a.node.CodeInfo?)
    ensures Alike(Feed(a, c), Feed(b, c))
  {
  }

  lemma {:induction false} ConsumeAlike(a: Head, b: Head, s: string)
    requires Good(a) && Alike(a, b)
    ensures Consume(a, s).1 == Consume(b, s).1 && Alike(Consume(a, s).0, Consume(b, s).0)
    decreases |s|
  {
    if s != [] {
      FeedAlike(a, b, s[0]);
      FeedGood(a, s[0]);
      ConsumeAlike(Feed(a, s[0]), Feed(b, s[0]), s[1..]);
      ConsumeAlikeStep(a, b, s, Feed(a, s[0]), Feed(b, s[0]));
    }
  }

  lemma ConsumeAlikeStep(a: Head, b: Head, s: string, a1: Head, b1: Head)
    requires s != [] && a1 == Feed(a, s[0]) && b1 == Feed(b, s[0]) && Alike(a1, b1)
    requires Consume(a1, s[1..]).1 == Consume(b1, s[1..]).1 && Alike(Consume(a1, s[1..]).0, Consume(b1, s[1..]).0)
    ensures Consume(a, s).1 == Consume(b, s).1 && Alike(Consume(a, s).0, Consume(b, s).0)
  {
  }

  /**
    `clear` leaves the old first buffer in the second, but no parse ever depends on it: the result
    is that of a new object, and so is the head when the parse succeeds.
  */
  lemma ParseStartsAfresh(h: Head, s: string)
    ensures Parse(h, s).1 == Parse(FRESH, s).1 && Parse(h, s).0.info == Parse(FRESH, s).0.info
    ensures Parse(h, s).1 != -1 ==> Parse(h, s).0 == Parse(FRESH, s).0
  {
    ConsumeAlike(Clear(h), Clear(FRESH), s);
  }
}
