/** `__init_parse_root`, and that the table it builds is the automaton. */
module HttpTable {

  import opened HttpGrammar
  import opened HttpKeywords
  import opened HttpEngine

  // ---------------------------------------------------------------- the steps, in order

  const LINES: seq<Instr> :=
    [Put(Sr, One('\n'), Sn, 0), Put(Sn, One('\r'), EndSr, 0), Put(EndSr, One('\n'), EndSn, 0)]

  const METHOD_LINKS: seq<Instr> := [Put(MethodSp, Blanks, MethodSp, 0), Put(MethodEnd, Blanks, MethodSp, 0)]

  const PATHS: seq<Instr> :=
    [Put(PathSp, Blanks, PathSp, 0), Put(PathInfo, Graphs, PathInfo, 1), Put(MethodSp, Graphs, PathInfo, 1),
     Put(MethodSp, Blanks, MethodSp, 0), Put(MethodSp, LineEnds, Err, 0), Put(PathInfo, Blanks, PathSp, 0),
     Put(PathInfo, LineEnds, Err, 0)]

  const STATUS_LINKS: seq<Instr> := [Put(StatusSp, Blanks, StatusSp, 0), Put(StatusEnd, Blanks, StatusSp, 0)]

  const CODES: seq<Instr> :=
    [Put(CodeSp, Blanks, CodeSp, 0), Put(CodeInfo, Nums, CodeInfo, 1), Put(StatusSp, Nums, CodeInfo, 1),
     Put(CodeInfo, Blanks, CodeSp, 0)]

  const VERSIONS: seq<Instr> :=
    [Put(MajorInfo, Nums, MajorInfo, 1), Put(MajorInfo, One('.'), Major, 0), Put(MinorInfo, Nums, MinorInfo, 1),
     Put(Major, Nums, MinorInfo, 1), Put(MinorInfo, One('\r'), Minor, 0), Put(Minor, One('\n'), Sn, 0)]

  const KEYS: seq<Instr> :=
    [Put(Sn, Graphs, KeyInfo, 1), Put(KeyInfo, Graphs, KeyInfo, 1), Put(KeyInfo, One(':'), KvSplit, 0),
     Put(KeyInfo, Blanks, KvSpace1, 0), Put(KvSpace1, Blanks, KvSpace1, 0), Put(KvSpace1, One(':'), KvSplit, 0)]

  const VALUES: seq<Instr> :=
    [Put(KvSplit, Blanks, KvSpace2, 0), Put(KvSpace2, Blanks, KvSpace2, 0), Put(KvSpace2, Graphs, ValueInfo, 2),
     Put(KvSplit, Graphs, ValueInfo, 2), Put(ValueInfo, Graphs, ValueInfo, 2), Put(ValueInfo, One('\r'), Sr, 0)]

  const METHODS_1: seq<Instr> :=
    [Kw(Root, Keyword("GET", MethodEnd, 1)), Kw(Root, Keyword("POST", MethodEnd, 1)), Kw(Root, Keyword("PUT", MethodEnd, 1)),
     Kw(Root, Keyword("DELETE", MethodEnd, 1))]

  const METHODS_2: seq<Instr> :=
    [Kw(Root, Keyword("TRACE", MethodEnd, 1)), Kw(Root, Keyword("CONNECT", MethodEnd, 1)), Kw(Root, Keyword("HEAD", MethodEnd, 1)),
     Kw(Root, Keyword("OPTIONS", MethodEnd, 1))]

  /** Steps taken one after the other from an edge. */
  function RunOn(prog: seq<Instr>, x: Node, c: char, was: Edge): Edge
    decreases prog
  {
    if prog == [] then was else RunOn(prog[1..], x, c, Effect(prog[0], x, c, was))
  }

  const STATUS_WORD: seq<Instr> := [Kw(Root, Keyword("STATUS", StatusEnd, 0))]

  const HTTP_WORDS: seq<Instr> := [Kw(CodeSp, Keyword("HTTP/", MajorInfo, 0)), Kw(PathSp, Keyword("HTTP/", MajorInfo, 0))]

  function First(): seq<Instr> { [] + LINES + METHOD_LINKS + METHODS_1 + METHODS_2 + PATHS }

  function Second(): seq<Instr> { First() + STATUS_LINKS + STATUS_WORD + CODES + HTTP_WORDS }

  function All(): seq<Instr> { Second() + VERSIONS + KEYS + VALUES }

  lemma {:induction false} RunAppend(a: seq<Instr>, b: seq<Instr>, x: Node, c: char)
    ensures Run(a + b, x, c) == RunOn(b, x, c, Run(a, x, c))
    decreases |b|
  {
    if b == [] {
      assert a + b == a;
    } else {
      assert a + b == (a + [b[0]]) + b[1..];
      RunAppend(a + [b[0]], b[1..], x, c);
      assert (a + [b[0]])[..|a|] == a;
    }
  }

  // ---- what each list of steps does to an edge

  lemma LinesRow(x: Node, c: char, was: Edge)
    ensures RunOn(LINES, x, c, was) ==
            match x
            case Sr => if c == '\n' then Edge(Sn, 0) else was
            case Sn => if c == '\r' then Edge(EndSr, 0) else was
            case EndSr => if c == '\n' then Edge(EndSn, 0) else was
            case _ => was
  {
  }

  lemma MethodRow(x: Node, c: char, was: Edge)
    ensures RunOn(METHOD_LINKS, x, c, was) == if (x.MethodSp? || x.MethodEnd?) && Blank(c) then Edge(MethodSp, 0) else was
  {
  }

  lemma WordsRow(x: Node, c: char, was: Edge)
    requires !x.Pre? && !x.Root?
    ensures RunOn(METHODS_1, x, c, was) == was && RunOn(METHODS_2, x, c, was) == was && RunOn(STATUS_WORD, x, c, was) == was
  {
  }

  lemma HttpRow(x: Node, c: char, was: Edge)
    requires !x.Pre? && ((!x.CodeSp? && !x.PathSp?) || Blank(c))
    ensures RunOn(HTTP_WORDS, x, c, was) == was
  {
  }

  lemma PathsRow(x: Node, c: char, was: Edge)
    ensures RunOn(PATHS, x, c, was) ==
            match x
            case PathSp => if Blank(c) then Edge(PathSp, 0) else was
            case PathInfo =>
              if Blank(c) then Edge(PathSp, 0) else if c == '\r' || c == '\n' then DEAD else if Graph(c) then Edge(PathInfo, 1) else was
            case MethodSp =>
              if Blank(c) then Edge(MethodSp, 0) else if c == '\r' || c == '\n' then DEAD else if Graph(c) then Edge(PathInfo, 1) else was
            case _ => was
  {
  }

  lemma StatusRow(x: Node, c: char, was: Edge)
    ensures RunOn(STATUS_LINKS, x, c, was) == if (x.StatusSp? || x.StatusEnd?) && Blank(c) then Edge(StatusSp, 0) else was
  {
  }

  lemma CodesRow(x: Node, c: char, was: Edge)
    ensures RunOn(CODES, x, c, was) ==
            match x
            case CodeSp => if Blank(c) then Edge(CodeSp, 0) else was
            case CodeInfo => if Blank(c) then Edge(CodeSp, 0) else if Digit(c) then Edge(CodeInfo, 1) else was
            case StatusSp => if Digit(c) then Edge(CodeInfo, 1) else was
            case _ => was
  {
  }

  lemma VersionsRow(x: Node, c: char, was: Edge)
    ensures RunOn(VERSIONS, x, c, was) ==
            match x
            case MajorInfo => if c == '.' then Edge(Major, 0) else if Digit(c) then Edge(MajorInfo, 1) else was
            case MinorInfo => if c == '\r' then Edge(Minor, 0) else if Digit(c) then Edge(MinorInfo, 1) else was
            case Major => if Digit(c) then Edge(MinorInfo, 1) else was
            case Minor => if c == '\n' then Edge(Sn, 0) else was
            case _ => was
  {
  }

  lemma KeysRow(x: Node, c: char, was: Edge)
    ensures RunOn(KEYS, x, c, was) ==
            match x
            case Sn => if Graph(c) then Edge(KeyInfo, 1) else was
            case KeyInfo =>
              if Blank(c) then Edge(KvSpace1, 0) else if c == ':' then Edge(KvSplit, 0) else if Graph(c) then Edge(KeyInfo, 1) else was
            case KvSpace1 => if c == ':' then Edge(KvSplit, 0) else if Blank(c) then Edge(KvSpace1, 0) else was
            case _ => was
  {
  }

  lemma ValuesRow(x: Node, c: char, was: Edge)
    ensures RunOn(VALUES, x, c, was) ==
            match x
            case KvSplit => if Graph(c) then Edge(ValueInfo, 2) else if Blank(c) then Edge(KvSpace2, 0) else was
            case KvSpace2 => if Graph(c) then Edge(ValueInfo, 2) else if Blank(c) then Edge(KvSpace2, 0) else was
            case ValueInfo => if c == '\r' then Edge(Sr, 0) else if Graph(c) then Edge(ValueInfo, 2) else was
            case _ => was
  {
  }

  // ---- all steps together

  function AfterFirst(x: Node, c: char): Edge
  {
    match x
    case Sr => if c == '\n' then Edge(Sn, 0) else DEAD
    case Sn => if c == '\r' then Edge(EndSr, 0) else DEAD
    case EndSr => if c == '\n' then Edge(EndSn, 0) else DEAD
    case MethodSp => Delta(MethodSp, c)
    case MethodEnd => Delta(MethodEnd, c)
    case PathSp => if Blank(c) then Edge(PathSp, 0) else DEAD
    case PathInfo => Delta(PathInfo, c)
    case _ => DEAD
  }

  lemma FirstRow(x: Node, c: char)
    requires !x.Pre? && !x.Root?
    ensures Run(First(), x, c) == AfterFirst(x, c)
  {
    var a := [] + LINES;
    RunAppend([], LINES, x, c);
    LinesRow(x, c, DEAD);
    var b := a + METHOD_LINKS;
    RunAppend(a, METHOD_LINKS, x, c);
    MethodRow(x, c, Run(a, x, c));
    var d := b + METHODS_1;
    RunAppend(b, METHODS_1, x, c);
    WordsRow(x, c, Run(b, x, c));
    var f := d + METHODS_2;
    RunAppend(d, METHODS_2, x, c);
    RunAppend(f, PATHS, x, c);
    PathsRow(x, c, Run(f, x, c));
  }

  lemma SecondRow(x: Node, c: char)
    requires !x.Pre? && !x.Root? && ((!x.CodeSp? && !x.PathSp?) || Blank(c))
    ensures Run(Second(), x, c) ==
            match x
            case StatusSp => Delta(StatusSp, c)
            case StatusEnd => Delta(StatusEnd, c)
            case CodeSp => Edge(CodeSp, 0)
            case CodeInfo => Delta(CodeInfo, c)
            case _ => AfterFirst(x, c)
  {
    FirstRow(x, c);
    var a := First() + STATUS_LINKS;
    RunAppend(First(), STATUS_LINKS, x, c);
    StatusRow(x, c, Run(First(), x, c));
    var b := a + STATUS_WORD;
    RunAppend(a, STATUS_WORD, x, c);
    WordsRow(x, c, Run(a, x, c));
    var d := b + CODES;
    RunAppend(b, CODES, x, c);
    CodesRow(x, c, Run(b, x, c));
    RunAppend(d, HTTP_WORDS, x, c);
    HttpRow(x, c, Run(d, x, c));
  }

  lemma ThirdRow(x: Node, c: char)
    requires !x.Pre? && !x.Root? && ((!x.CodeSp? && !x.PathSp?) || Blank(c))
    ensures Run(Second() + VERSIONS, x, c) ==
            match x
            case Sn => if c == '\r' then Edge(EndSr, 0) else DEAD
            case KeyInfo => DEAD
            case KvSpace1 => DEAD
            case KvSplit => DEAD
            case KvSpace2 => DEAD
            case ValueInfo => DEAD
            case _ => Delta(x, c)
  {
    SecondRow(x, c);
    RunAppend(Second(), VERSIONS, x, c);
    VersionsRow(x, c, Run(Second(), x, c));
  }

  lemma FieldsRow(x: Node, c: char, was: Edge)
    requires x.Sn? ==> was == if c == '\r' then Edge(EndSr, 0) else DEAD
    requires x.KeyInfo? || x.KvSpace1? || x.KvSplit? || x.KvSpace2? || x.ValueInfo? ==> was == DEAD
    ensures RunOn(VALUES, x, c, RunOn(KEYS, x, c, was)) ==
            if x.Sn? || x.KeyInfo? || x.KvSpace1? || x.KvSplit? || x.KvSpace2? || x.ValueInfo? then Delta(x, c) else was
  {
    KeysRow(x, c, was);
    ValuesRow(x, c, RunOn(KEYS, x, c, was));
  }

  lemma AllRow(x: Node, c: char)
    requires !x.Pre? && !x.Root? && ((!x.CodeSp? && !x.PathSp?) || Blank(c))
    ensures Run(All(), x, c) == Delta(x, c)
  {
    var a := Second() + VERSIONS;
    ThirdRow(x, c);
    FieldsRow(x, c, Run(a, x, c));
    RunAppend(a, KEYS, x, c);
    RunAppend(a + KEYS, VALUES, x, c);
  }

  // ---------------------------------------------------------------- the construction

  method BuildLines(e: Engine) returns (sr: nat, sn: nat, endSr: nat, endSn: nat)
    requires e.Good() && Sr !in e.at && Sn !in e.at && EndSr !in e.at && EndSn !in e.at
    modifies e
    ensures e.Good() && e.words == old(e.words) && e.prog == old(e.prog) + LINES
    ensures e.at == old(e.at)[Sr := sr][Sn := sn][EndSr := endSr][EndSn := endSn]
  {
    sr := e.Make(Indeterminate, FieldRead, Sr);
    sn := e.Make(Indeterminate, Nothing, Sn);
    e.PutOne(sr, '\n', sn, Sr, Sn);
    endSr := e.Make(Indeterminate, Nothing, EndSr);
    endSn := e.Make(Done, Nothing, EndSn);
    e.PutOne(sn, '\r', endSr, Sn, EndSr);
    e.PutOne(endSr, '\n', endSn, EndSr, EndSn);
  }

  method BuildMethodLinks(e: Engine) returns (method_: nat, methodEnd: nat)
    requires e.Good() && MethodSp !in e.at && MethodEnd !in e.at
    modifies e
    ensures e.Good() && e.words == old(e.words) && e.prog == old(e.prog) + METHOD_LINKS && e.at == old(e.at)[MethodSp := method_][MethodEnd := methodEnd]
  {
    method_ := e.Make(Indeterminate, MethodRead, MethodSp);
    e.PutBlanks(method_, method_, MethodSp, MethodSp);
    methodEnd := e.Make(Indeterminate, Nothing, MethodEnd);
    e.PutBlanks(methodEnd, method_, MethodEnd, MethodSp);
  }

  lemma RootKeyword(j: nat)
    requires j < 9
    ensures |Keywords(Root)| == 9
    ensures Keywords(Root)[j] ==
            match j
            case 0 => Keyword("GET", MethodEnd, 1)
            case 1 => Keyword("POST", MethodEnd, 1)
            case 2 => Keyword("PUT", MethodEnd, 1)
            case 3 => Keyword("DELETE", MethodEnd, 1)
            case 4 => Keyword("TRACE", MethodEnd, 1)
            case 5 => Keyword("CONNECT", MethodEnd, 1)
            case 6 => Keyword("HEAD", MethodEnd, 1)
            case 7 => Keyword("OPTIONS", MethodEnd, 1)
            case _ => Keyword("STATUS", StatusEnd, 0)
  {
  }

  method AddMethod(e: Engine, w: seq<Byte>, root: nat, methodEnd: nat)
    requires e.Good() && e.Named(root, Root) && e.Named(methodEnd, MethodEnd)
    requires e.Count(Root) < |Keywords(Root)| && Keywords(Root)[e.Count(Root)] == Keyword(w, MethodEnd, 1)
    modifies e
    ensures e.Good() && e.at == old(e.at) && e.words == old(e.words)[Root := old(e.Count(Root)) + 1]
    ensures e.prog == old(e.prog) + [Kw(Root, Keyword(w, MethodEnd, 1))]
  {
    e.AddKeyword(w, root, methodEnd, 1, Root, MethodEnd);
  }

  method BuildMethods1(e: Engine, root: nat, methodEnd: nat)
    requires e.Good() && e.Named(root, Root) && e.Named(methodEnd, MethodEnd) && e.Count(Root) == 0
    modifies e
    ensures e.Good() && e.at == old(e.at) && e.words == old(e.words)[Root := 4] && e.prog == old(e.prog) + METHODS_1
  {
    RootKeyword(0);
    AddMethod(e, "GET", root, methodEnd);
    RootKeyword(1);
    AddMethod(e, "POST", root, methodEnd);
    RootKeyword(2);
    AddMethod(e, "PUT", root, methodEnd);
    RootKeyword(3);
    AddMethod(e, "DELETE", root, methodEnd);
  }

  method BuildMethods2(e: Engine, root: nat, methodEnd: nat)
    requires e.Good() && e.Named(root, Root) && e.Named(methodEnd, MethodEnd) && e.Count(Root) == 4
    modifies e
    ensures e.Good() && e.at == old(e.at) && e.words == old(e.words)[Root := 8] && e.prog == old(e.prog) + METHODS_2
  {
    RootKeyword(4);
    AddMethod(e, "TRACE", root, methodEnd);
    RootKeyword(5);
    AddMethod(e, "CONNECT", root, methodEnd);
    RootKeyword(6);
    AddMethod(e, "HEAD", root, methodEnd);
    RootKeyword(7);
    AddMethod(e, "OPTIONS", root, methodEnd);
  }

  method BuildPaths(e: Engine, err: nat, method_: nat) returns (path: nat, pathInfo: nat)
    requires e.Good() && e.Named(err, Err) && e.Named(method_, MethodSp) && PathSp !in e.at && PathInfo !in e.at
    modifies e
    ensures e.Good() && e.words == old(e.words) && e.prog == old(e.prog) + PATHS && e.at == old(e.at)[PathSp := path][PathInfo := pathInfo]
  {
    path := e.Make(Indeterminate, PathRead, PathSp);
    e.PutBlanks(path, path, PathSp, PathSp);
    pathInfo := e.Make(Indeterminate, Nothing, PathInfo);
    e.PutGraphs(pathInfo, pathInfo, 1, PathInfo, PathInfo);
    e.PutGraphs(method_, pathInfo, 1, MethodSp, PathInfo);
    e.PutBlanks(method_, method_, MethodSp, MethodSp);
    e.PutLineEnds(method_, err, MethodSp, Err);
    e.PutBlanks(pathInfo, path, PathInfo, PathSp);
    e.PutLineEnds(pathInfo, err, PathInfo, Err);
  }

  method BuildStatusLinks(e: Engine) returns (status: nat, statusEnd: nat)
    requires e.Good() && StatusSp !in e.at && StatusEnd !in e.at
    modifies e
    ensures e.Good() && e.words == old(e.words) && e.prog == old(e.prog) + STATUS_LINKS && e.at == old(e.at)[StatusSp := status][StatusEnd := statusEnd]
  {
    status := e.Make(Indeterminate, Nothing, StatusSp);
    e.PutBlanks(status, status, StatusSp, StatusSp);
    statusEnd := e.Make(Indeterminate, Nothing, StatusEnd);
    e.PutBlanks(statusEnd, status, StatusEnd, StatusSp);
  }

  method BuildCodes(e: Engine, status: nat) returns (code: nat, codeInfo: nat)
    requires e.Good() && e.Named(status, StatusSp) && CodeSp !in e.at && CodeInfo !in e.at
    modifies e
    ensures e.Good() && e.words == old(e.words) && e.prog == old(e.prog) + CODES && e.at == old(e.at)[CodeSp := code][CodeInfo := codeInfo]
  {
    code := e.Make(Indeterminate, StatusRead, CodeSp);
    e.PutBlanks(code, code, CodeSp, CodeSp);
    codeInfo := e.Make(Indeterminate, Nothing, CodeInfo);
    e.PutDigits(codeInfo, codeInfo, CodeInfo, CodeInfo);
    e.PutDigits(status, codeInfo, StatusSp, CodeInfo);
    e.PutBlanks(codeInfo, code, CodeInfo, CodeSp);
  }

  method MakeVersionNodes(e: Engine) returns (major: nat, minor: nat, majorInfo: nat, minorInfo: nat)
    requires e.Good() && Major !in e.at && Minor !in e.at && MajorInfo !in e.at && MinorInfo !in e.at
    modifies e
    ensures e.Good() && e.words == old(e.words) && e.prog == old(e.prog)
    ensures e.at == old(e.at)[Major := major][Minor := minor][MajorInfo := majorInfo][MinorInfo := minorInfo]
  {
    major := e.Make(Indeterminate, MajorRead, Major);
    minor := e.Make(Indeterminate, MinorRead, Minor);
    majorInfo := e.Make(Indeterminate, Nothing, MajorInfo);
    minorInfo := e.Make(Indeterminate, Nothing, MinorInfo);
  }

  method BuildVersions(e: Engine, major: nat, minor: nat, majorInfo: nat, minorInfo: nat, sn: nat)
    requires e.Good() && e.Named(major, Major) && e.Named(minor, Minor) && e.Named(majorInfo, MajorInfo) && e.Named(minorInfo, MinorInfo)
    requires e.Named(sn, Sn)
    modifies e
    ensures e.Good() && e.words == old(e.words) && e.prog == old(e.prog) + VERSIONS && e.at == old(e.at)
  {
    e.PutDigits(majorInfo, majorInfo, MajorInfo, MajorInfo);
    e.PutOne(majorInfo, '.', major, MajorInfo, Major);
    e.PutDigits(minorInfo, minorInfo, MinorInfo, MinorInfo);
    e.PutDigits(major, minorInfo, Major, MinorInfo);
    e.PutOne(minorInfo, '\r', minor, MinorInfo, Minor);
    e.PutOne(minor, '\n', sn, Minor, Sn);
  }

  method MakeFieldNodes(e: Engine) returns (key: nat, space1: nat, split: nat, space2: nat, value: nat)
    requires e.Good() && KeyInfo !in e.at && KvSpace1 !in e.at && KvSplit !in e.at && KvSpace2 !in e.at && ValueInfo !in e.at
    modifies e
    ensures e.Good() && e.words == old(e.words) && e.prog == old(e.prog)
    ensures e.at == old(e.at)[KeyInfo := key][KvSpace1 := space1][KvSplit := split][KvSpace2 := space2][ValueInfo := value]
  {
    key := e.Make(Indeterminate, Nothing, KeyInfo);
    space1 := e.Make(Indeterminate, Nothing, KvSpace1);
    split := e.Make(Indeterminate, Nothing, KvSplit);
    space2 := e.Make(Indeterminate, Nothing, KvSpace2);
    value := e.Make(Indeterminate, Nothing, ValueInfo);
  }

  method BuildKeys(e: Engine, sn: nat, key: nat, space1: nat, split: nat)
    requires e.Good() && e.Named(sn, Sn) && e.Named(key, KeyInfo) && e.Named(space1, KvSpace1) && e.Named(split, KvSplit)
    modifies e
    ensures e.Good() && e.words == old(e.words) && e.prog == old(e.prog) + KEYS && e.at == old(e.at)
  {
    e.PutGraphs(sn, key, 1, Sn, KeyInfo);
    e.PutGraphs(key, key, 1, KeyInfo, KeyInfo);
    e.PutOne(key, ':', split, KeyInfo, KvSplit);
    e.PutBlanks(key, space1, KeyInfo, KvSpace1);
    e.PutBlanks(space1, space1, KvSpace1, KvSpace1);
    e.PutOne(space1, ':', split, KvSpace1, KvSplit);
  }

  method BuildValues(e: Engine, sr: nat, split: nat, space2: nat, value: nat)
    requires e.Good() && e.Named(sr, Sr) && e.Named(split, KvSplit) && e.Named(space2, KvSpace2) && e.Named(value, ValueInfo)
    modifies e
    ensures e.Good() && e.words == old(e.words) && e.prog == old(e.prog) + VALUES && e.at == old(e.at)
  {
    e.PutBlanks(split, space2, KvSplit, KvSpace2);
    e.PutBlanks(space2, space2, KvSpace2, KvSpace2);
    e.PutGraphs(space2, value, 2, KvSpace2, ValueInfo);
    e.PutGraphs(split, value, 2, KvSplit, ValueInfo);
    e.PutGraphs(value, value, 2, ValueInfo, ValueInfo);
    e.PutOne(value, '\r', sr, ValueInfo, Sr);
  }

  method BuildRequests(e: Engine, err: nat, root: nat) returns (path: nat)
    requires e.Good() && e.Named(err, Err) && e.Named(root, Root) && e.words == map[]
    requires MethodSp !in e.at && MethodEnd !in e.at && PathSp !in e.at && PathInfo !in e.at
    modifies e
    ensures e.Good() && e.prog == old(e.prog) + METHOD_LINKS + METHODS_1 + METHODS_2 + PATHS && e.words == map[Root := 8]
    ensures e.Named(path, PathSp)
    ensures forall x :: x in old(e.at) ==> x in e.at && e.at[x] == old(e.at)[x]
    ensures forall x :: x in e.at ==> x in old(e.at) || x.MethodSp? || x.MethodEnd? || x.PathSp? || x.PathInfo?
  {
    var method_, methodEnd := BuildMethodLinks(e);
    BuildMethods1(e, root, methodEnd);
    BuildMethods2(e, root, methodEnd);
    var pathInfo;
    path, pathInfo := BuildPaths(e, err, method_);
  }

  method BuildStatus(e: Engine, root: nat) returns (status: nat, statusEnd: nat)
    requires e.Good() && e.Named(root, Root) && e.Count(Root) == 8 && StatusSp !in e.at && StatusEnd !in e.at
    modifies e
    ensures e.Good() && e.words == old(e.words)[Root := 9] && e.prog == old(e.prog) + STATUS_LINKS + STATUS_WORD
    ensures e.at == old(e.at)[StatusSp := status][StatusEnd := statusEnd]
  {
    status, statusEnd := BuildStatusLinks(e);
    RootKeyword(8);
    e.AddKeyword("STATUS", root, statusEnd, 0, Root, StatusEnd);
  }

  method BuildHttp(e: Engine, code: nat, path: nat, majorInfo: nat)
    requires e.Good() && e.Named(code, CodeSp) && e.Named(path, PathSp) && e.Named(majorInfo, MajorInfo)
    requires e.Count(CodeSp) == 0 && e.Count(PathSp) == 0
    modifies e
    ensures e.Good() && e.at == old(e.at) && e.words == old(e.words)[CodeSp := 1][PathSp := 1] && e.prog == old(e.prog) + HTTP_WORDS
  {
    e.AddKeyword("HTTP/", code, majorInfo, 0, CodeSp, MajorInfo);
    e.AddKeyword("HTTP/", path, majorInfo, 0, PathSp, MajorInfo);
  }

  method BuildSecond(e: Engine, root: nat, path: nat) returns (majorInfo: nat, major: nat, minor: nat, minorInfo: nat)
    requires e.Good() && e.Named(root, Root) && e.Named(path, PathSp) && e.words == map[Root := 8]
    requires StatusSp !in e.at && StatusEnd !in e.at && CodeSp !in e.at && CodeInfo !in e.at
    requires Major !in e.at && Minor !in e.at && MajorInfo !in e.at && MinorInfo !in e.at
    modifies e
    ensures e.Good() && e.prog == old(e.prog) + STATUS_LINKS + STATUS_WORD + CODES + HTTP_WORDS
    ensures e.words == map[Root := 9, CodeSp := 1, PathSp := 1]
    ensures e.Named(majorInfo, MajorInfo) && e.Named(major, Major) && e.Named(minor, Minor) && e.Named(minorInfo, MinorInfo)
    ensures forall x :: x in old(e.at) ==> x in e.at && e.at[x] == old(e.at)[x]
    ensures forall x :: x in e.at ==> x in old(e.at) || !Late(x)
  {
    var status, statusEnd := BuildStatus(e, root);
    var code, codeInfo := BuildCodes(e, status);
    major, minor, majorInfo, minorInfo := MakeVersionNodes(e);
    BuildHttp(e, code, path, majorInfo);
  }

  predicate Late(x: Node) { x.KeyInfo? || x.KvSpace1? || x.KvSplit? || x.KvSpace2? || x.ValueInfo? }

  /** The finished table. */
  ghost predicate Ready(e: Engine)
    reads e
  {
    e.Good() && e.prog == All() && e.words == map[Root := 9, CodeSp := 1, PathSp := 1]
  }

  method BuildFields(e: Engine, sr: nat, sn: nat)
    requires e.Good() && e.Named(sr, Sr) && e.Named(sn, Sn) && forall x :: x in e.at ==> !Late(x)
    modifies e
    ensures e.Good() && e.words == old(e.words) && e.prog == old(e.prog) + KEYS + VALUES
    ensures forall x :: x in old(e.at) ==> x in e.at && e.at[x] == old(e.at)[x]
  {
    var key, space1, split, space2, value := MakeFieldNodes(e);
    BuildKeys(e, sn, key, space1, split);
    BuildValues(e, sr, split, space2, value);
  }

  method BuildStart() returns (e: Engine, root: nat, sr: nat, sn: nat)
    ensures fresh(e) && e.Good() && e.prog == [] + LINES && e.words == map[]
    ensures e.Named(0, Err) && e.Named(root, Root) && e.Named(sr, Sr) && e.Named(sn, Sn)
    ensures forall x :: x in e.at ==> x.Err? || x.Root? || x.Sr? || x.Sn? || x.EndSr? || x.EndSn?
  {
    e := new Engine();
    root := e.Make(Indeterminate, Nothing, Root);
    var endSr, endSn;
    sr, sn, endSr, endSn := BuildLines(e);
  }

  predicate Soon(x: Node)
  {
    x.Err? || x.Root? || x.Sr? || x.Sn? || x.EndSr? || x.EndSn? || x.MethodSp? || x.MethodEnd? || x.PathSp? || x.PathInfo?
  }

  method BuildFirst() returns (e: Engine, root: nat, sr: nat, sn: nat, path: nat)
    ensures fresh(e) && e.Good() && e.prog == First() && e.words == map[Root := 8]
    ensures e.Named(root, Root) && e.Named(sr, Sr) && e.Named(sn, Sn) && e.Named(path, PathSp)
    ensures forall x :: x in e.at ==> Soon(x)
  {
    e, root, sr, sn := BuildStart();
    path := BuildRequests(e, 0, root);
  }

  /** `__init_parse_root`. */
  method InitParseRoot() returns (e: Engine, root: nat)
    ensures fresh(e) && Ready(e) && e.Named(root, Root)
  {
    var sr, sn, path;
    e, root, sr, sn, path := BuildFirst();
    var majorInfo, major, minor, minorInfo := BuildSecond(e, root, path);
    BuildVersions(e, major, minor, majorInfo, minorInfo, sn);
    BuildFields(e, sr, sn);
  }

  lemma WordsDone(e: Engine, n: Node)
    requires Ready(e) && Speller(n)
    ensures WordsOf(e.prog, n) == Keywords(n)
  {
    assert e.HasWords(n);
    assert Keywords(n)[..|Keywords(n)|] == Keywords(n);
  }

  /** All steps together make the automaton. */
  lemma RunIsDelta(prog: seq<Instr>, x: Node, c: char)
    requires Tame(prog) && prog == All() && (x.Pre? ==> x.p != [])
    requires WordsOf(prog, Root) == Keywords(Root) && WordsOf(prog, PathSp) == Keywords(PathSp) && WordsOf(prog, CodeSp) == Keywords(CodeSp)
    ensures Run(prog, x, c) == Delta(x, c)
  {
    if Speller(x) && (!Blank(c) || x.Root?) {
      RunSpells(prog, x, x, c);
      assert [] + [c] == [c];
    } else if x.Pre? && Speller(x.from) {
      RunSpells(prog, x.from, x, c);
    } else if x.Pre? {
      RunOutside(prog, x, c);
    } else {
      AllRow(x, c);
    }
  }

  /** The table is the automaton: every cell leads where `Delta` leads and saves what it saves. */
  lemma TableIsAutomaton(e: Engine, p: nat, c: Byte)
    requires Ready(e) && p < |e.names|
    ensures e.EdgeAt(p, c) == Delta(e.names[p], c)
    ensures e.states[p] == StateOf(e.names[p]) && e.results[p] == ResultOf(e.names[p])
  {
    assert e.NodeOk(p) && e.HasParent(p);
    WordsDone(e, Root);
    WordsDone(e, PathSp);
    WordsDone(e, CodeSp);
    RunIsDelta(e.prog, e.names[p], c);
  }
}
