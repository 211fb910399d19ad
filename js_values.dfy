/**
 * The few pieces of JavaScript value semantics the widget relies on:
 * properties that may be undefined, string concatenation with undefined,
 * truthiness of strings, `indexOf`, `split(sep)[1]` and jQuery's `$.trim`.
 */
module JsValues {

  /** A property that may be missing (undefined) on a JavaScript object. */
  datatype Option<+T> = None | Some(value: T)

  /** What `"..." + v` inserts for a property that may be undefined. */
  function Text(v: Option<string>): string
  {
    match v
    case Some(s) => s
    case None => "undefined"
  }

  /** JavaScript truthiness of a possibly undefined string: undefined and "" are falsy. */
  predicate Truthy(v: Option<string>)
  {
    v.Some? && v.value != ""
  }

  /** `a || b` on possibly undefined strings. */
  function Or(a: Option<string>, b: Option<string>): Option<string>
  {
    if Truthy(a) then a else b
  }

  // ---------------------------------------------------------------------------
  // indexOf and split

  /** `sub` occurs in `s` starting at position `i`. */
  predicate OccursAt(s: string, sub: string, i: int)
  {
    0 <= i && i + |sub| <= |s| && s[i..i + |sub|] == sub
  }

  lemma OccursAtTail(s: string, sub: string)
    requires |s| > 0
    ensures forall j :: 0 < j ==> (OccursAt(s, sub, j) <==> OccursAt(s[1..], sub, j - 1))
  {
    forall j | 0 < j
      ensures OccursAt(s, sub, j) <==> OccursAt(s[1..], sub, j - 1)
    {
      if j + |sub| <= |s| {
        assert s[1..][j - 1..j - 1 + |sub|] == s[j..j + |sub|];
      }
    }
  }

  /** `s.indexOf(sub)`: the first position where `sub` occurs, None standing for -1. */
  function IndexOf(s: string, sub: string): (r: Option<nat>)
    ensures r.Some? ==> OccursAt(s, sub, r.value)
    ensures r.Some? ==> forall j :: 0 <= j < r.value ==> !OccursAt(s, sub, j)
    ensures r.None? ==> forall j :: !OccursAt(s, sub, j)
    decreases |s|
  {
    if |s| < |sub| then None
    else if s[..|sub|] == sub then Some(0)
    else
      OccursAtTail(s, sub);
      match IndexOf(s[1..], sub)
      case None => None
      case Some(i) => Some(i + 1)
  }

  /** `s.indexOf(sub) != -1`. */
  predicate Contains(s: string, sub: string)
  {
    IndexOf(s, sub).Some?
  }

  /**
   * `s.split(sep)[1]`: the text between the first and the second occurrence of
   * `sep` (or the end of `s`); undefined when `sep` does not occur at all.
   */
  function SplitSecond(s: string, sep: string): Option<string>
    requires sep != ""
  {
    match IndexOf(s, sep)
    case None => None
    case Some(i) =>
      var rest := s[i + |sep|..];
      match IndexOf(rest, sep)
      case None => Some(rest)
      case Some(j) => Some(rest[..j])
  }

  /** Splitting `sep + x` on `sep` gives back `x` whenever `x` does not itself contain `sep`. */
  lemma SplitSecondAfterSeparator(sep: string, x: string)
    requires sep != ""
    requires !Contains(x, sep)
    ensures SplitSecond(sep + x, sep) == Some(x)
  {
    var s := sep + x;
    assert s[..|sep|] == sep;
    assert IndexOf(s, sep) == Some(0);
    assert s[|sep|..] == x;
  }

  // ---------------------------------------------------------------------------
  // $.trim

  /** The white space `$.trim` strips: the characters of JavaScript's `\s` class. */
  predicate IsSpace(c: char)
  {
    || c == ' ' || c == '\t' || c == '\n' || c == '\r' || c == '\U{B}' || c == '\U{C}'
    || c == '\U{A0}' || c == '\U{1680}' || ('\U{2000}' <= c <= '\U{200A}')
    || c == '\U{2028}' || c == '\U{2029}' || c == '\U{202F}' || c == '\U{205F}'
    || c == '\U{3000}' || c == '\U{FEFF}'
  }

  predicate AllSpace(s: string)
  {
    forall i :: 0 <= i < |s| ==> IsSpace(s[i])
  }

  function TrimStart(s: string): string
  {
    if |s| > 0 && IsSpace(s[0]) then TrimStart(s[1..]) else s
  }

  function TrimEnd(s: string): string
  {
    if |s| > 0 && IsSpace(s[|s| - 1]) then TrimEnd(s[..|s| - 1]) else s
  }

  /** `$.trim(s)`: `s` without leading and trailing white space. */
  function Trim(s: string): string
  {
    TrimEnd(TrimStart(s))
  }

  lemma {:induction false} TrimStartEmpty(s: string)
    ensures TrimStart(s) == "" <==> AllSpace(s)
    ensures TrimStart(s) != "" ==> !IsSpace(TrimStart(s)[0])
  {
    if |s| > 0 && IsSpace(s[0]) {
      TrimStartEmpty(s[1..]);
      assert AllSpace(s) <==> AllSpace(s[1..]) by {
        if AllSpace(s[1..]) {
          forall i | 0 <= i < |s| ensures IsSpace(s[i]) {
            if i > 0 { assert s[i] == s[1..][i - 1]; }
          }
        }
      }
    }
  }

  lemma {:induction false} TrimEndKeepsNonSpaceStart(s: string)
    requires s != "" && !IsSpace(s[0])
    ensures TrimEnd(s) != ""
  {
    if IsSpace(s[|s| - 1]) {
      TrimEndKeepsNonSpaceStart(s[..|s| - 1]);
    }
  }

  /** `$.trim(s)` is empty exactly when `s` consists of white space only. */
  lemma TrimEmpty(s: string)
    ensures Trim(s) == "" <==> AllSpace(s)
  {
    TrimStartEmpty(s);
    if TrimStart(s) != "" {
      TrimEndKeepsNonSpaceStart(TrimStart(s));
    }
  }
}
