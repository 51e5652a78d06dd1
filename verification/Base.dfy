/** Small definitions shared by every model in this project. */
module Base {

  datatype Option<+T> = None | Some(value: T)

  function Min(a: int, b: int): (r: int)
    ensures r <= a && r <= b && (r == a || r == b)
  {
    if a < b then a else b
  }

  function Max(a: int, b: int): (r: int)
    ensures r >= a && r >= b && (r == a || r == b)
  {
    if a < b then b else a
  }

  /** A list of tickets without `t`. */
  function Without(q: seq<nat>, t: nat): seq<nat> {
    if q == [] then [] else (if q[0] == t then [] else [q[0]]) + Without(q[1..], t)
  }

  /** Lower-case hexadecimal. */
  function HexDigit(n: nat): char
    requires n < 16
  {
    if n < 10 then '0' + n as char else 'a' + (n - 10) as char
  }

  function HexDigitValue(c: char): Option<nat> {
    if '0' <= c <= '9' then Some(c as int - '0' as int)
    else if 'a' <= c <= 'f' then Some(c as int - 'a' as int + 10)
    else if 'A' <= c <= 'F' then Some(c as int - 'A' as int + 10)
    else None
  }

  /** Where `c` occurs first. */
  function FindChar(s: string, c: char): (r: Option<nat>)
    ensures r.Some? ==> r.value < |s|
  {
    if s == "" then None
    else if s[0] == c then Some(0)
    else
      var r := FindChar(s[1..], c);
      if r.None? then None else Some(r.value + 1)
  }

  lemma {:induction false} FindCharIs(s: string, c: char, rest: string)
    requires forall i :: 0 <= i < |s| ==> s[i] != c
    ensures FindChar(s + [c] + rest, c) == Some(|s|)
  {
    if s != "" {
      assert (s + [c] + rest)[1..] == s[1..] + [c] + rest;
      FindCharIs(s[1..], c, rest);
    }
  }

  lemma {:induction false} FindCharFinds(s: string, c: char)
    ensures FindChar(s, c).Some? ==>
      s[FindChar(s, c).value] == c && forall i :: 0 <= i < FindChar(s, c).value ==> s[i] != c
    ensures FindChar(s, c).None? ==> c !in s
  {
    if s != "" {
      FindCharFinds(s[1..], c);
      assert forall i :: 0 < i < |s| ==> s[i] == s[1..][i - 1];
    }
  }
}
