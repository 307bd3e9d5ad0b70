/** The automaton of the HTTP head parser, written as one transition function. */
module HttpGrammar {

  datatype ParseState = Indeterminate | Error | Done

  /** What has been read completely when the parser enters a node. */
  datatype NodeResult = Nothing | MethodRead | PathRead | StatusRead | MajorRead | MinorRead | FieldRead

  /** The nodes; `Pre(n, p)` has read the proper prefix `p` of a keyword since node `n`. */
  datatype Node =
    | Err
    | Root
    | Sr | Sn | EndSr | EndSn
    | MethodSp | MethodEnd
    | PathSp | PathInfo
    | StatusSp | StatusEnd | CodeSp | CodeInfo
    | Major | Minor | MajorInfo | MinorInfo
    | KeyInfo | KvSpace1 | KvSplit | KvSpace2 | ValueInfo
    | Pre(from: Node, p: string)

  datatype Edge = Edge(to: Node, save: int)    // save: 0 no buffer, 1 first, 2 second

  const DEAD := Edge(Err, 0)

  datatype Keyword = Keyword(word: string, end: Node, save: int)

  /** The keywords that may follow a node, in the order in which they are added. */
  function Keywords(n: Node): seq<Keyword>
  {
    match n
    case Root =>
      [Keyword("GET", MethodEnd, 1), Keyword("POST", MethodEnd, 1), Keyword("PUT", MethodEnd, 1),
       Keyword("DELETE", MethodEnd, 1), Keyword("TRACE", MethodEnd, 1), Keyword("CONNECT", MethodEnd, 1),
       Keyword("HEAD", MethodEnd, 1), Keyword("OPTIONS", MethodEnd, 1), Keyword("STATUS", StatusEnd, 0)]
    case PathSp => [Keyword("HTTP/", MajorInfo, 0)]
    case CodeSp => [Keyword("HTTP/", MajorInfo, 0)]
    case _ => []
  }

  function At(n: Node, p: string): Node { if p == [] then n else Pre(n, p) }

  /** The edge for reading the last character of `q` after the others, from node `n`. */
  function Spell(n: Node, ks: seq<Keyword>, q: string): Edge
  {
    if ks == [] then DEAD
    else if q <= ks[0].word then Edge(if |q| == |ks[0].word| then ks[0].end else Pre(n, q), ks[0].save)
    else Spell(n, ks[1..], q)
  }

  predicate Graph(c: char) { '!' <= c <= '~' }

  predicate Digit(c: char) { '0' <= c <= '9' }

  predicate Blank(c: char) { c == ' ' || c == '\t' }

  /** Where the parser goes from a node on an upper-cased character. */
  function Delta(n: Node, c: char): Edge
  {
    match n
    case Root => Spell(Root, Keywords(Root), [c])
    case Pre(from, p) => Spell(from, Keywords(from), p + [c])
    case Sr => if c == '\n' then Edge(Sn, 0) else DEAD
    case Sn => if c == '\r' then Edge(EndSr, 0) else if Graph(c) then Edge(KeyInfo, 1) else DEAD
    case EndSr => if c == '\n' then Edge(EndSn, 0) else DEAD
    case MethodSp => if Blank(c) then Edge(MethodSp, 0) else if Graph(c) then Edge(PathInfo, 1) else DEAD
    case MethodEnd => if Blank(c) then Edge(MethodSp, 0) else DEAD
    case PathSp => if Blank(c) then Edge(PathSp, 0) else Spell(PathSp, Keywords(PathSp), [c])
    case PathInfo => if Blank(c) then Edge(PathSp, 0) else if Graph(c) then Edge(PathInfo, 1) else DEAD
    case StatusSp => if Blank(c) then Edge(StatusSp, 0) else if Digit(c) then Edge(CodeInfo, 1) else DEAD
    case StatusEnd => if Blank(c) then Edge(StatusSp, 0) else DEAD
    case CodeSp => if Blank(c) then Edge(CodeSp, 0) else Spell(CodeSp, Keywords(CodeSp), [c])
    case CodeInfo => if Blank(c) then Edge(CodeSp, 0) else if Digit(c) then Edge(CodeInfo, 1) else DEAD
    case MajorInfo => if c == '.' then Edge(Major, 0) else if Digit(c) then Edge(MajorInfo, 1) else DEAD
    case Major => if Digit(c) then Edge(MinorInfo, 1) else DEAD
    case MinorInfo => if c == '\r' then Edge(Minor, 0) else if Digit(c) then Edge(MinorInfo, 1) else DEAD
    case Minor => if c == '\n' then Edge(Sn, 0) else DEAD
    case KeyInfo =>
      if c == ':' then Edge(KvSplit, 0) else if Blank(c) then Edge(KvSpace1, 0) else if Graph(c) then Edge(KeyInfo, 1) else DEAD
    case KvSpace1 => if c == ':' then Edge(KvSplit, 0) else if Blank(c) then Edge(KvSpace1, 0) else DEAD
    case KvSplit => if Blank(c) then Edge(KvSpace2, 0) else if Graph(c) then Edge(ValueInfo, 2) else DEAD
    case KvSpace2 => if Blank(c) then Edge(KvSpace2, 0) else if Graph(c) then Edge(ValueInfo, 2) else DEAD
    case ValueInfo => if c == '\r' then Edge(Sr, 0) else if Graph(c) then Edge(ValueInfo, 2) else DEAD
    case _ => DEAD
  }

  function StateOf(n: Node): ParseState
  {
    match n
    case Err => Error
    case EndSn => Done
    case _ => Indeterminate
  }

  function ResultOf(n: Node): NodeResult
  {
    match n
    case Sr => FieldRead
    case MethodSp => MethodRead
    case PathSp => PathRead
    case CodeSp => StatusRead
    case Major => MajorRead
    case Minor => MinorRead
    case _ => Nothing
  }
}
