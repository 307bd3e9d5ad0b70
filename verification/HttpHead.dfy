/** The parser object, running on the table, and the accessors of single fields. */
module HttpHead {

  import opened HttpGrammar
  import opened HttpFields
  import opened HttpParser
  import opened HttpEngine
  import opened HttpTable

  class Parser {
    const engine: Engine
    const root: nat
    var info: Info
    var node: nat
    var buf: string
    var buf2: string

    ghost predicate Valid()
      reads this, engine
    {
      Ready(engine) && root < |engine.names| && engine.names[root] == Root && node < |engine.names|
    }

    ghost function View(): Head
      reads this, engine
      requires Valid()
    {
      Head(info, engine.names[node], buf, buf2)
    }

    constructor ()
      ensures Valid() && View() == FRESH && fresh(engine)
    {
      var e, r := InitParseRoot();
      engine, root, info, node, buf, buf2 := e, r, BLANK, r, "", "";
      assert e.Known(Root);
    }

    method ClearHead()
      requires Valid()
      modifies this
      ensures Valid() && View() == Clear(old(View()))
    {
      info, node := BLANK, root;
      var empty := "";
      buf, empty := empty, buf;
      buf2 := empty;
    }

    /** `parse_engine_node::next`: the table cell of the upper-cased character decides. */
    method Next(c: Byte)
      requires Valid()
      modifies this
      ensures Valid() && info == old(info)
      ensures var e := Delta(old(engine.names[node]), Upper(c));
              && engine.names[node] == e.to
              && buf == (if e.save == 1 then old(buf) + [c] else old(buf))
              && buf2 == (if e.save == 2 then old(buf2) + [c] else old(buf2))
    {
      var uc: Byte := Upper(c);
      TableIsAutomaton(engine, node, uc);
      assert engine.NodeOk(node);
      var cell := engine.save[node][uc as int];
      if cell == 1 {
        buf := buf + [c];
      } else if cell == 2 {
        buf2 := buf2 + [c];
      }
      node := engine.next[node][uc as int];
    }

    /** `consume(char)`. */
    method ConsumeChar(c: Byte)
      requires Valid()
      modifies this
      ensures Valid() && View() == Feed(old(View()), c)
    {
      Next(c);
      var state, r := State();
      if state.Indeterminate? {
        if buf != [] && r != Nothing {
          SetResult(r);
          buf, buf2 := "", "";
        }
      }
    }

    /** The switch of `consume(char)`: what was read goes where it belongs. */
    method SetResult(r: NodeResult)
      modifies `info
      ensures info == Store(old(info), r, buf, buf2)
    {
      match r {
        case MethodRead => info := info.(verb := VerbOf(UpperAll(buf)), ty := Request);
        case PathRead => info := info.(path := buf);
        case StatusRead => info := info.(status := Number(buf), ty := Response);
        case MajorRead => info := info.(major := Number(buf));
        case MinorRead => info := info.(minor := Number(buf));
        case FieldRead => info := info.(fields := Insert(info.fields, Field(buf, buf2)));
        case Nothing =>
      }
    }

    method State() returns (s: ParseState, r: NodeResult)
      requires Valid()
      ensures s == StateOf(View().node) && r == ResultOf(View().node)
    {
      assert engine.NodeOk(node);
      s, r := engine.states[node], engine.results[node];
    }

    /** `consume(data, len)`. */
    method ConsumeData(data: seq<Byte>) returns (n: int)
      requires Valid()
      modifies this
      ensures Valid() && (View(), n) == Consume(old(View()), data)
    {
      var i := 0;
      ghost var h0 := View();
      while i < |data|
        invariant 0 <= i <= |data| && Valid() && Ongoing(h0, data, i, View())
      {
        OngoingStep(h0, data, i, View());
        ConsumeChar(data[i]);
        var s, _ := State();
        if s.Done? { return i + 1; }
        else if s.Error? { return -1; }
        i := i + 1;
      }
      return |data|;
    }

    /** `parse`. */
    method ParseString(s: seq<Byte>) returns (n: int)
      requires Valid()
      modifies this
      ensures Valid() && (View(), n) == Parse(old(View()), s)
    {
      ClearHead();
      n := ConsumeData(s);
      var state, _ := State();
      if !state.Done? {
        ClearHead();
        n := -1;
      }
    }
  }

  /** `i` characters are consumed, the parser is at `h`, and the rest decides. */
  predicate Ongoing(h0: Head, data: string, i: nat, h: Head)
  {
    i <= |data| && var r := Consume(h, data[i..]); Consume(h0, data) == (r.0, if r.1 == -1 then -1 else i + r.1)
  }

  lemma OngoingStep(h0: Head, data: string, i: nat, h: Head)
    requires Ongoing(h0, data, i, h) && i < |data|
    ensures var h' := Feed(h, data[i]);
            match StateOf(h'.node)
            case Done => Consume(h0, data) == (h', i + 1)
            case Error => Consume(h0, data) == (h', -1)
            case Indeterminate => Ongoing(h0, data, i + 1, h')
  {
    assert data[i..] == [data[i]] + data[i + 1..];
    OngoingOne(h0, data, i, h, data[i], data[i + 1..], Feed(h, data[i]));
  }

  lemma OngoingOne(h0: Head, data: string, i: nat, h: Head, c: char, t: string, h': Head)
    requires Ongoing(h0, data, i, h) && i < |data| && data[i..] == [c] + t && data[i + 1..] == t && h' == Feed(h, c)
    ensures match StateOf(h'.node)
            case Done => Consume(h0, data) == (h', i + 1)
            case Error => Consume(h0, data) == (h', -1)
            case Indeterminate => Ongoing(h0, data, i + 1, h')
  {
    ConsumeOne(h, c, t, h');
  }

  // ---------------------------------------------------------------- single fields

  predicate Equivalent(a: string, b: string) { !Less(a, b) && !Less(b, a) }

  /** `find`: the first field with an equivalent key. */
  predicate Contains(fs: seq<Field>, key: string)
  {
    fs != [] && (Equivalent(fs[0].key, key) || Contains(fs[1..], key))
  }

  function Lookup(fs: seq<Field>, key: string): string
  {
    if fs == [] then "" else if Equivalent(fs[0].key, key) then fs[0].value else Lookup(fs[1..], key)
  }

  lemma EquivalentMeans(a: string, b: string)
    requires IsBytes(a) && IsBytes(b)
    ensures Equivalent(a, b) <==> Caseless(a, b)
  {
    EquivalentIsCaseless(a, b);
  }

  /** A field is found under any spelling of its key: the first one that differs in case only. */
  lemma {:induction false} LookupIgnoresCase(fs: seq<Field>, key: string)
    requires IsBytes(key) && forall i :: 0 <= i < |fs| ==> IsBytes(fs[i].key)
    ensures (forall i :: 0 <= i < |fs| ==> !Caseless(fs[i].key, key)) ==> Lookup(fs, key) == ""
    ensures forall i :: 0 <= i < |fs| && Caseless(fs[i].key, key) && (forall j :: 0 <= j < i ==> !Caseless(fs[j].key, key)) ==>
                          Lookup(fs, key) == fs[i].value
    decreases |fs|
  {
    if fs != [] {
      EquivalentMeans(fs[0].key, key);
      LookupIgnoresCase(fs[1..], key);
      if !Caseless(fs[0].key, key) {
        forall i | 0 <= i < |fs| && Caseless(fs[i].key, key) && (forall j :: 0 <= j < i ==> !Caseless(fs[j].key, key))
          ensures Lookup(fs, key) == fs[i].value
        {
          assert i > 0 && fs[1..][i - 1] == fs[i];
          assert forall j :: 0 <= j < i - 1 ==> !Caseless(fs[1..][j].key, key);
        }
      }
    }
  }

  function Assign(fs: seq<Field>, key: string, value: string): seq<Field>
  {
    if fs == [] then []
    else if Equivalent(fs[0].key, key) then [fs[0].(value := value)] + fs[1..]
    else [fs[0]] + Assign(fs[1..], key, value)
  }

  /** What the setters do: assign to the field that is there, or insert it. */
  function SetField(fs: seq<Field>, key: string, value: string): seq<Field>
  {
    if Contains(fs, key) then Assign(fs, key, value) else Insert(fs, Field(key, value))
  }

  lemma Reflexive(a: string)
    ensures Equivalent(a, a)
  {
    StrictWeakOrder(a, a, a);
  }

  lemma {:induction false} AssignGet(fs: seq<Field>, key: string, value: string)
    requires Contains(fs, key)
    ensures Lookup(Assign(fs, key, value), key) == value
    decreases |fs|
  {
    if !Equivalent(fs[0].key, key) { AssignGet(fs[1..], key, value); }
  }

  lemma {:induction false} InsertGet(fs: seq<Field>, f: Field)
    requires !Contains(fs, f.key)
    ensures Lookup(Insert(fs, f), f.key) == f.value
    decreases |fs|
  {
    Reflexive(f.key);
    if fs != [] && !Less(f.key, fs[0].key) { InsertGet(fs[1..], f); }
  }

  /** What is set is what is then read. */
  lemma SetThenGet(fs: seq<Field>, key: string, value: string)
    ensures Lookup(SetField(fs, key, value), key) == value
  {
    if Contains(fs, key) { AssignGet(fs, key, value); } else { InsertGet(fs, Field(key, value)); }
  }

  lemma SameClass(a: string, b: string, c: string)
    requires Equivalent(a, b)
    ensures Equivalent(a, c) <==> Equivalent(b, c)
  {
    StrictWeakOrder(a, b, c);
    StrictWeakOrder(b, a, c);
    StrictWeakOrder(c, b, a);
    StrictWeakOrder(c, a, b);
  }

  lemma {:induction false} AssignOther(fs: seq<Field>, key: string, value: string, other: string)
    requires !Equivalent(key, other)
    ensures Lookup(Assign(fs, key, value), other) == Lookup(fs, other)
    decreases |fs|
  {
    if fs != [] {
      if Equivalent(fs[0].key, key) { SameClass(fs[0].key, key, other); } else { AssignOther(fs[1..], key, value, other); }
    }
  }

  lemma {:induction false} InsertOther(fs: seq<Field>, f: Field, other: string)
    requires !Equivalent(f.key, other)
    ensures Lookup(Insert(fs, f), other) == Lookup(fs, other)
    decreases |fs|
  {
    if fs != [] && !Less(f.key, fs[0].key) { InsertOther(fs[1..], f, other); }
  }

  /** Setting one field leaves the others, under any spelling of other keys, as they were. */
  lemma SetLeavesOthers(fs: seq<Field>, key: string, value: string, other: string)
    requires !Equivalent(key, other)
    ensures Lookup(SetField(fs, key, value), other) == Lookup(fs, other)
  {
    if Contains(fs, key) { AssignOther(fs, key, value, other); } else { InsertOther(fs, Field(key, value), other); }
  }

  function SetContentLength(i: Info, len: nat): Info { i.(fields := SetField(i.fields, "Content-Length", ToString(len))) }

  function ContentLength(i: Info): nat { Number(Lookup(i.fields, "Content-Length")) }

  function Host(i: Info): string { Lookup(i.fields, "Host") }

  /** `set_host`, which looks for and writes the field of the content length. */
  function SetHost(i: Info, s: string): Info { i.(fields := SetField(i.fields, "Content-Length", s)) }

  lemma ContentLengthIsKept(i: Info, len: nat)
    ensures ContentLength(SetContentLength(i, len)) == len && Host(SetContentLength(i, len)) == Host(i)
  {
    SetThenGet(i.fields, "Content-Length", ToString(len));
    AtoiToString(len);
    SetLeavesOthers(i.fields, "Content-Length", ToString(len), "Host");
  }

  /** Setting the host is seen by `host` only if that host was set already; the content length is lost. */
  lemma SetHostExactly(i: Info, s: string)
    ensures Host(SetHost(i, s)) == s <==> Host(i) == s
    ensures Lookup(SetHost(i, s).fields, "Content-Length") == s
  {
    SetThenGet(i.fields, "Content-Length", s);
    SetLeavesOthers(i.fields, "Content-Length", s, "Host");
  }

  lemma SetHostMisses()
    ensures Host(SetHost(BLANK, "example.org")) == ""
  {
    SetLeavesOthers([], "Content-Length", "example.org", "Host");
  }
}
