/**
 * JSON texts as RFC 8259 prints them: whitespace (section 2), objects (section 4), arrays
 * (section 5) and strings (section 7). Numbers and literal names (NaN and Infinity, which Python
 * reads, among them) carry no brace, quote or backslash, and that is all the scanners of the text
 * agent ever see of them; so any run of their characters is admitted.
 */
module JsonText {
  /** One character of a string: printed raw, behind a backslash, or as a \u escape. */
  datatype Unit = Raw(c: char) | Escaped(c: char) | Hex(a: char, b: char, c3: char, d: char)

  datatype Json =
    | Atom(text: string)
    | Text(units: seq<Unit>)
    | Arr(blank: string, elems: Elems)
    | Obj(blank: string, members: Members)

  datatype Elems = NoElems | Elem(pre: string, value: Json, post: string, rest: Elems)

  datatype Members =
    | NoMembers
    | Member(pre: string, key: seq<Unit>, mid: string, colon: string, value: Json, post: string, rest: Members)

  predicate IsWs(c: char) { c == ' ' || c == '\t' || c == '\n' || c == '\r' }

  predicate IsHexDigit(c: char) { '0' <= c <= '9' || 'a' <= c <= 'f' || 'A' <= c <= 'F' }

  predicate IsAtomChar(c: char) {
    '0' <= c <= '9' || 'a' <= c <= 'z' || 'A' <= c <= 'Z' || c == '+' || c == '-' || c == '.'
  }

  predicate AllWs(s: string) { forall i :: 0 <= i < |s| ==> IsWs(s[i]) }

  predicate UnitOk(u: Unit) {
    match u
    case Raw(c) => c != '"' && c != '\\' && ' ' <= c
    case Escaped(c) => c in ['"', '\\', '/', 'b', 'f', 'n', 'r', 't']
    case Hex(a, b, c, d) => IsHexDigit(a) && IsHexDigit(b) && IsHexDigit(c) && IsHexDigit(d)
  }

  predicate UnitsOk(us: seq<Unit>) { forall i :: 0 <= i < |us| ==> UnitOk(us[i]) }

  predicate Ok(v: Json) {
    match v
    case Atom(t) => t != "" && forall i :: 0 <= i < |t| ==> IsAtomChar(t[i])
    case Text(us) => UnitsOk(us)
    case Arr(b, es) => AllWs(b) && ElemsOk(es)
    case Obj(b, ms) => AllWs(b) && MembersOk(ms)
  }

  predicate ElemsOk(es: Elems) {
    es.Elem? ==> AllWs(es.pre) && AllWs(es.post) && Ok(es.value) && ElemsOk(es.rest)
  }

  predicate MembersOk(ms: Members) {
    ms.Member? ==>
      && AllWs(ms.pre) && UnitsOk(ms.key) && AllWs(ms.mid) && AllWs(ms.colon)
      && Ok(ms.value) && AllWs(ms.post) && MembersOk(ms.rest)
  }

  function PrintUnit(u: Unit): string {
    match u
    case Raw(c) => [c]
    case Escaped(c) => ['\\', c]
    case Hex(a, b, c, d) => ['\\', 'u', a, b, c, d]
  }

  function PrintUnits(us: seq<Unit>): string {
    if us == [] then [] else PrintUnit(us[0]) + PrintUnits(us[1..])
  }

  function PrintString(us: seq<Unit>): string { ['"'] + PrintUnits(us) + ['"'] }

  function Print(v: Json): string {
    match v
    case Atom(t) => t
    case Text(us) => PrintString(us)
    case Arr(b, es) => ['['] + (if es.NoElems? then b else PrintElems(es)) + [']']
    case Obj(b, ms) => ['{'] + PrintBody(b, ms) + ['}']
  }

  function PrintElems(es: Elems): string {
    match es
    case NoElems => ""
    case Elem(pre, v, post, rest) =>
      pre + Print(v) + post + (if rest.NoElems? then "" else [','] + PrintElems(rest))
  }

  /** What stands between the two braces of an object. */
  function PrintBody(blank: string, ms: Members): string
    decreases ms, 1
  {
    if ms.NoMembers? then blank else PrintMembers(ms)
  }

  function PrintMembers(ms: Members): string
    decreases ms, 0
  {
    match ms
    case NoMembers => ""
    case Member(pre, key, mid, colon, v, post, rest) =>
      pre + PrintString(key) + mid + [':'] + colon + Print(v) + post
      + (if rest.NoMembers? then "" else [','] + PrintMembers(rest))
  }

  /** The texts a JSON parser accepts: one value with whitespace around it. */
  ghost predicate Parses(text: string) {
    exists pre, v, post :: IsPrinted(text, pre, v, post)
  }

  ghost predicate IsPrinted(text: string, pre: string, v: Json, post: string) {
    AllWs(pre) && AllWs(post) && Ok(v) && text == pre + Print(v) + post
  }
}
