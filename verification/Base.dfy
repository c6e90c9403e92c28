/** Small vocabulary shared by every module: optional values, identifiers,
    and the string operations of Go's `strings` package that the program relies on. */
module Base {

  datatype Option<+T> = None | Some(value: T)

  /** Generated identifiers. The generator never repeats itself; 0 stands for the empty string. */
  type Id = nat

  const NO_ID: Id := 0

  function Min(a: real, b: real): real { if a < b then a else b }

  // ---------- strings ----------

  predicate HasPrefix(s: string, prefix: string) { prefix <= s }

  predicate HasSuffix(s: string, suffix: string)
  {
    |suffix| <= |s| && s[|s| - |suffix|..] == suffix
  }

  predicate Contains(s: string, t: string)
  {
    exists i {:trigger s[i..]} :: 0 <= i <= |s| && t <= s[i..]
  }

  function TrimPrefix(s: string, prefix: string): string
  {
    if HasPrefix(s, prefix) then s[|prefix|..] else s
  }

  predicate IsSpace(c: char) { c == ' ' || c == '\t' || c == '\n' || c == '\r' }

  function TrimLeft(s: string): (r: string)
    ensures |r| <= |s| && r == s[|s| - |r|..]
  {
    if s != [] && IsSpace(s[0]) then TrimLeft(s[1..]) else s
  }

  function TrimRight(s: string): (r: string)
    ensures r <= s
  {
    if s != [] && IsSpace(s[|s| - 1]) then TrimRight(s[..|s| - 1]) else s
  }

  function TrimSpace(s: string): string { TrimRight(TrimLeft(s)) }

  function Join(items: seq<string>, separator: string): string
  {
    if items == [] then ""
    else if |items| == 1 then items[0]
    else items[0] + separator + Join(items[1..], separator)
  }

  /** A string without blanks at its ends is left alone by TrimSpace. */
  lemma TrimIdentity(s: string)
    requires s == [] || (!IsSpace(s[0]) && !IsSpace(s[|s| - 1]))
    ensures TrimSpace(s) == s
  {}

  /** A needle whose first three letters occur nowhere in a row is not contained. */
  lemma Absent(s: string, t: string)
    requires |t| >= 3
    requires forall i :: 0 <= i && i + |t| <= |s| ==> !(s[i] == t[0] && s[i + 1] == t[1] && s[i + 2] == t[2])
    ensures !Contains(s, t)
  {
    forall i | 0 <= i <= |s|
      ensures !(t <= s[i..])
    {
      if i + |t| <= |s| {
        assert s[i..][0] == s[i] && s[i..][1] == s[i + 1] && s[i..][2] == s[i + 2];
      }
    }
  }
}
