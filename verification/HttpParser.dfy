/**
  `http_head`: feeding characters, streaming and one-shot parsing.  Strings are sequences of
  bytes held in `char`s; integers are unbounded.
*/
module HttpParser {

  import opened HttpGrammar
  import opened HttpFields

  datatype HeadType = Unset | Request | Response

  datatype Verb = Unknown | Get | Post | Put | Delete | Trace | Connect | HeadVerb | Options

  function VerbOf(s: string): Verb
  {
    if s == "GET" then Get else if s == "POST" then Post else if s == "PUT" then Put
    else if s == "DELETE" then Delete else if s == "TRACE" then Trace else if s == "CONNECT" then Connect
    else if s == "HEAD" then HeadVerb else if s == "OPTIONS" then Options else Unknown
  }

  function VerbName(v: Verb): string
  {
    match v
    case Get => "GET"
    case Post => "POST"
    case Put => "PUT"
    case Delete => "DELETE"
    case Trace => "TRACE"
    case Connect => "CONNECT"
    case HeadVerb => "HEAD"
    case Options => "OPTIONS"
    case Unknown => "UNKOWN"
  }

  /** What the caller sees of a head. */
  datatype Info = Info(ty: HeadType, verb: Verb, path: string, status: int, major: int, minor: int, fields: seq<Field>)

  datatype Head = Head(info: Info, node: Node, buf: string, buf2: string)

  const BLANK := Info(Unset, Unknown, "", 0, 1, 1, [])

  /** `clear`: the second buffer is swapped with the string that took the first one's old contents. */
  function Clear(h: Head): Head { Head(BLANK, Root, "", h.buf) }

  const FRESH := Head(BLANK, Root, "", "")

  function Number(s: string): nat { if Digits(s) then Atoi(s) else 0 }

  function Store(i: Info, r: NodeResult, buf: string, buf2: string): Info
  {
    match r
    case MethodRead => i.(verb := VerbOf(UpperAll(buf)), ty := Request)
    case PathRead => i.(path := buf)
    case StatusRead => i.(status := Number(buf), ty := Response)
    case MajorRead => i.(major := Number(buf))
    case MinorRead => i.(minor := Number(buf))
    case FieldRead => i.(fields := Insert(i.fields, Field(buf, buf2)))
    case Nothing => i
  }

  /** `consume(char)`. */
  function Feed(h: Head, c: char): Head { Move(h, c, Delta(h.node, Upper(c))) }

  /** Following an edge of the automaton. */
  function Move(h: Head, c: char, e: Edge): Head
  {
    var buf := if e.save == 1 then h.buf + [c] else h.buf;
    var buf2 := if e.save == 2 then h.buf2 + [c] else h.buf2;
    if StateOf(e.to).Indeterminate? && buf != [] && ResultOf(e.to) != Nothing then
      Head(Store(h.info, ResultOf(e.to), buf, buf2), e.to, "", "")
    else Head(h.info, e.to, buf, buf2)
  }

  /** `consume(data, len)`; the result -1 reports an error. */
  function Consume(h: Head, s: string): (r: (Head, int))
    ensures -1 <= r.1 <= |s|
    decreases |s|
  {
    if s == [] then (h, 0)
    else
      var h' := Feed(h, s[0]);
      if StateOf(h'.node).Done? then (h', 1)
      else if StateOf(h'.node).Error? then (h', -1)
      else
        var (h2, n) := Consume(h', s[1..]);
        (h2, if n == -1 then -1 else n + 1)
  }

  function Parse(h: Head, s: string): (r: (Head, int))
  {
    var (h', n) := Consume(Clear(h), s);
    if StateOf(h'.node).Done? then (h', n) else (Clear(h'), -1)
  }

  predicate Open(h: Head) { StateOf(h.node).Indeterminate? }

  /** A result that comes after `n1` characters already taken. */
  function Added(n1: int, r2: (Head, int)): (Head, int) { (r2.0, if r2.1 == -1 then -1 else n1 + r2.1) }

  /** The result of consuming one string and then another. */
  function Both(h: Head, a: string, b: string): (Head, int)
  {
    var r := Consume(h, a);
    Added(r.1, Consume(r.0, b))
  }

  /**
    Streaming is one-shot parsing: as long as the parser is undecided after `a`, consuming `a`
    and then `b` gives the same head and the same total as consuming them together.
  */
  lemma {:induction false} StreamingIsOneShot(h: Head, a: string, b: string)
    requires Open(h) && Open(Consume(h, a).0)
    ensures Consume(h, a).1 == |a|
    ensures Consume(h, a + b) == Both(h, a, b)
    decreases |a|
  {
    if a == [] {
      assert a + b == b;
    } else {
      var h', t := Feed(h, a[0]), a[1..];
      assert a == [a[0]] + t && a + b == [a[0]] + (t + b);
      StillOpen(h, a[0], t, h');
      StreamingIsOneShot(h', t, b);
      StreamingStep(h, a[0], t, b, h');
    }
  }

  lemma StillOpen(h: Head, c: char, t: string, h': Head)
    requires h' == Feed(h, c) && Open(Consume(h, [c] + t).0)
    ensures Open(h') && Open(Consume(h', t).0)
  {
    ConsumeOne(h, c, t, h');
  }

  lemma StreamingStep(h: Head, c: char, t: string, b: string, h': Head)
    requires h' == Feed(h, c) && Open(h') && Consume(h', t).1 == |t| && Consume(h', t + b) == Both(h', t, b)
    ensures Consume(h, [c] + t).1 == |t| + 1 && Consume(h, [c] + (t + b)) == Both(h, [c] + t, b)
  {
    ConsumeOne(h, c, t, h');
    ConsumeOne(h, c, t + b, h');
    Regroup(Consume(h', t), Consume(Consume(h', t).0, b), Consume(h', t + b), Consume(h, [c] + t), Consume(h, [c] + (t + b)), |t|);
  }

  /** The same on the results alone: of both parts, of the whole, and of each with one character more in front. */
  lemma Regroup(first: (Head, int), second: (Head, int), both: (Head, int), first1: (Head, int), both1: (Head, int), n: nat)
    requires first.1 == n && second.1 >= -1 && both == Added(n, second)
    requires first1 == (first.0, n + 1) && both1 == (both.0, if both.1 == -1 then -1 else both.1 + 1)
    ensures both1 == Added(first1.1, second)
  {
    OneMore(n, second);
  }

  lemma OneMore(n1: int, r2: (Head, int))
    requires n1 >= 0 && r2.1 >= -1
    ensures var r := Added(n1, r2); Added(n1 + 1, r2) == (r.0, if r.1 == -1 then -1 else r.1 + 1)
  {
  }

  lemma ConsumeOne(h: Head, c: char, t: string, h': Head)
    requires h' == Feed(h, c)
    ensures StateOf(h'.node).Done? ==> Consume(h, [c] + t) == (h', 1)
    ensures StateOf(h'.node).Error? ==> Consume(h, [c] + t) == (h', -1)
    ensures StateOf(h'.node).Indeterminate? ==>
              var r := Consume(h', t); Consume(h, [c] + t) == (r.0, if r.1 == -1 then -1 else r.1 + 1)
  {
    assert ([c] + t)[1..] == t && ([c] + t)[0] == c;
  }

  /** The same for any number of pieces. */
  function ConsumeAll(h: Head, pieces: seq<string>): Head
    decreases |pieces|
  {
    if pieces == [] then h else ConsumeAll(Consume(h, pieces[0]).0, pieces[1..])
  }

  function Joined(pieces: seq<string>): string
  {
    if pieces == [] then [] else pieces[0] + Joined(pieces[1..])
  }

  lemma OpenBefore(h: Head, a: string, b: string)
    requires Open(h) && Open(Consume(h, a + b).0)
    ensures Open(Consume(h, a).0)
    decreases |a|
  {
    if a != [] {
      assert (a + b)[1..] == a[1..] + b && (a + b)[0] == a[0];
      OpenBefore(Feed(h, a[0]), a[1..], b);
    }
  }

  lemma {:induction false} AnySplit(h: Head, pieces: seq<string>)
    requires Open(h) && Open(Consume(h, Joined(pieces)).0)
    ensures ConsumeAll(h, pieces) == Consume(h, Joined(pieces)).0
    decreases |pieces|
  {
    if pieces != [] {
      OpenBefore(h, pieces[0], Joined(pieces[1..]));
      StreamingIsOneShot(h, pieces[0], Joined(pieces[1..]));
      AnySplit(Consume(h, pieces[0]).0, pieces[1..]);
    }
  }

  /** Error is absorbing: nothing read later changes the head or the verdict, whether it comes in the same call or in another. */
  lemma {:induction false} ErrorAbsorbs(h: Head, a: string, b: string)
    requires Open(h) && Consume(h, a).0.node.Err?
    ensures Consume(h, a + b) == Consume(h, a) && Consume(h, a).1 == -1
    ensures Consume(Consume(h, a).0, b).0 == Consume(h, a).0 && (b != [] ==> Consume(Consume(h, a).0, b).1 == -1)
    decreases |a|
  {
    assert (a + b)[1..] == a[1..] + b && (a + b)[0] == a[0];
    var h' := Feed(h, a[0]);
    if Open(h') { ErrorAbsorbs(h', a[1..], b); }
  }

  /** A parse that succeeded does not look at what follows. */
  lemma {:induction false} DoneIgnoresRest(h: Head, s: string, t: string)
    requires Open(h) && StateOf(Consume(h, s).0.node).Done?
    ensures Consume(h, s + t) == Consume(h, s) && 0 < Consume(h, s).1 <= |s|
    decreases |s|
  {
    assert (s + t)[1..] == s[1..] + t && (s + t)[0] == s[0];
    var h' := Feed(h, s[0]);
    if Open(h') { DoneIgnoresRest(h', s[1..], t); }
  }

  lemma ParseIgnoresRest(h: Head, s: string, t: string)
    requires Parse(h, s).1 != -1
    ensures Parse(h, s + t) == Parse(h, s) && 0 < Parse(h, s).1 <= |s|
  {
    DoneIgnoresRest(Clear(h), s, t);
  }

  /** `parse` reports how much it read of a complete head, or fails and leaves an empty one, at the beginning. */
  lemma ParseOutcome(h: Head, s: string)
    ensures var (h', n) := Parse(h, s);
            if n == -1 then h'.info == BLANK && h'.node.Root? && h'.buf == "" else h'.node.EndSn? && 0 < n <= |s|
  {
    if StateOf(Consume(Clear(h), s).0.node).Done? { DoneIgnoresRest(Clear(h), s, ""); }
  }
}
