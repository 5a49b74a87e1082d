// Shared vocabulary: optional values, JSON members as Python's dict.get sees them,
// and the few string operations the agents and the server use (ASCII only).
module Common {

  datatype Option<T> = None | Some(value: T)
  {
    function GetOr(default: T): T
    {
      if Some? then value else default
    }
  }

  /** A member of a JSON object: missing key, explicit null, or a value. */
  datatype Field<T> = Absent | Null | Val(value: T)

  /** Python truthiness of an optional integer id (None and 0 are false). */
  predicate TruthyId(o: Option<int>)
  {
    o.Some? && o.value != 0
  }

  /** Python truthiness of an optional string (None and "" are false). */
  predicate TruthyStr(o: Option<string>)
  {
    o.Some? && o.value != ""
  }

  function LowerChar(c: char): char
  {
    if 'A' <= c <= 'Z' then (c as int + 32) as char else c
  }

  /** str.lower restricted to ASCII letters. */
  function Lower(s: string): (r: string)
    ensures |r| == |s|
    ensures forall i :: 0 <= i < |s| ==> r[i] == LowerChar(s[i])
  {
    if s == [] then [] else [LowerChar(s[0])] + Lower(s[1..])
  }

  predicate StartsWith(s: string, prefix: string)
  {
    |prefix| <= |s| && s[..|prefix|] == prefix
  }

  predicate EndsWith(s: string, suffix: string)
  {
    |suffix| <= |s| && s[|s| - |suffix|..] == suffix
  }

  /** str.startswith with a tuple of prefixes. */
  predicate StartsWithAny(s: string, prefixes: seq<string>)
  {
    exists k :: 0 <= k < |prefixes| && StartsWith(s, prefixes[k])
  }

  /** The `in` operator on strings: `sub` occurs somewhere in `s`. */
  predicate Contains(s: string, sub: string)
    decreases |s|
  {
    StartsWith(s, sub) || (|s| > 0 && Contains(s[1..], sub))
  }

  /** Index of the first occurrence of `c` in `s`. */
  function IndexOf(s: string, c: char): (r: Option<nat>)
    ensures r.Some? ==> r.value < |s| && s[r.value] == c && c !in s[..r.value]
    ensures r.None? ==> c !in s
  {
    if s == [] then None
    else if s[0] == c then Some(0)
    else
      var rest := IndexOf(s[1..], c);
      if rest.None? then None
      else
        assert s[..rest.value + 1] == [s[0]] + s[1..][..rest.value];
        Some(rest.value + 1)
  }

  /** Index of the last occurrence of `c` in `s`. */
  function LastIndexOf(s: string, c: char): (r: Option<nat>)
    ensures r.Some? ==> r.value < |s| && s[r.value] == c && c !in s[r.value + 1..]
    ensures r.None? ==> c !in s
  {
    if s == [] then None
    else if s[|s| - 1] == c then Some(|s| - 1)
    else
      var front := LastIndexOf(s[..|s| - 1], c);
      if front.None? then
        assert s == s[..|s| - 1] + [s[|s| - 1]];
        None
      else
        assert s[front.value + 1..] == s[..|s| - 1][front.value + 1..] + [s[|s| - 1]];
        front
  }

  /** Two occurrences of `c` each followed by no other `c` are the same one. */
  lemma LastUnique(s: string, c: char, i: int, j: int)
    requires 0 <= i < |s| && 0 <= j < |s|
    requires s[i] == c && c !in s[i + 1..]
    requires s[j] == c && c !in s[j + 1..]
    ensures i == j
  {
    forall k | i < k < |s|
      ensures s[k] != c
    {
      assert s[i + 1..][k - i - 1] == s[k];
    }
    forall k | j < k < |s|
      ensures s[k] != c
    {
      assert s[j + 1..][k - j - 1] == s[k];
    }
  }

  /** An occurrence of `c` followed by no other is the one LastIndexOf finds. */
  lemma LastAt(s: string, c: char, i: nat)
    requires i < |s| && s[i] == c && c !in s[i + 1..]
    ensures LastIndexOf(s, c) == Some(i)
  {
    LastUnique(s, c, i, LastIndexOf(s, c).value);
  }

  /** `c.join(pieces)`: the pieces with one `c` between neighbours. */
  function Join(pieces: seq<string>, c: char): string
  {
    if pieces == [] then ""
    else if |pieces| == 1 then pieces[0]
    else pieces[0] + [c] + Join(pieces[1..], c)
  }

  /** str.split(c): the pieces between occurrences of `c`, always at least one; joining them on `c` gives `s` back. */
  function Split(s: string, c: char): (r: seq<string>)
    ensures |r| >= 1
    ensures forall k :: 0 <= k < |r| ==> c !in r[k]
    ensures Join(r, c) == s
    decreases |s|
  {
    match IndexOf(s, c)
    case None => [s]
    case Some(i) =>
      var rest := Split(s[i + 1..], c);
      assert ([s[..i]] + rest)[1..] == rest;
      assert s == s[..i] + [c] + s[i + 1..];
      [s[..i]] + rest
  }

  /** The ASCII characters str.strip removes: space, \t to \r, and the separators \x1c to \x1f. */
  predicate IsSpace(c: char)
  {
    c == ' ' || 9 <= c as int <= 13 || 28 <= c as int <= 31
  }

  function TrimLeft(s: string): (r: string)
    ensures |r| <= |s|
    ensures r != [] ==> !IsSpace(r[0])
    ensures r == s[|s| - |r|..]
  {
    if s != [] && IsSpace(s[0]) then TrimLeft(s[1..]) else s
  }

  function TrimRight(s: string): (r: string)
    ensures |r| <= |s|
    ensures r != [] ==> !IsSpace(r[|r| - 1])
    ensures r == s[..|r|]
  {
    if s != [] && IsSpace(s[|s| - 1]) then TrimRight(s[..|s| - 1]) else s
  }

  /** str.strip() with no argument. */
  function Strip(s: string): string
  {
    TrimRight(TrimLeft(s))
  }

  /** str.isdigit() on ASCII: non-empty and every character a decimal digit. */
  predicate IsDigits(s: string)
  {
    |s| > 0 && forall i :: 0 <= i < |s| ==> '0' <= s[i] <= '9'
  }

  /** The position of the first element of `xs` satisfying `p`, as a `for ... if p: return` loop finds it. */
  function FirstWhere<T>(xs: seq<T>, p: T -> bool): (r: Option<nat>)
    ensures r.None? <==> forall k :: 0 <= k < |xs| ==> !p(xs[k])
    ensures r.Some? ==> r.value < |xs| && p(xs[r.value]) && forall j :: 0 <= j < r.value ==> !p(xs[j])
    decreases |xs|
  {
    if xs == [] then None
    else if p(xs[0]) then Some(0)
    else
      var rest := FirstWhere(xs[1..], p);
      assert forall k :: 1 <= k < |xs| ==> xs[k] == xs[1..][k - 1];
      if rest.None? then None else Some(rest.value + 1)
  }

  /** The present values of `rs`, in order (what appending only successes to a list builds). */
  function Somes<T>(rs: seq<Option<T>>): seq<T>
    decreases |rs|
  {
    if rs == [] then []
    else Somes(rs[..|rs| - 1]) + (if rs[|rs| - 1].Some? then [rs[|rs| - 1].value] else [])
  }

  /** The positions of the present values of `rs`, in order. */
  function SomeIndices<T>(rs: seq<Option<T>>): seq<nat>
    decreases |rs|
  {
    if rs == [] then []
    else SomeIndices(rs[..|rs| - 1]) + (if rs[|rs| - 1].Some? then [|rs| - 1] else [])
  }

  /**
   * Somes keeps exactly the present values in their original order: the k-th
   * kept value sits at the k-th present position, positions strictly increase,
   * and every present position is kept.
   */
  lemma {:induction false} SomesInOrder<T>(rs: seq<Option<T>>)
    ensures |SomeIndices(rs)| == |Somes(rs)| <= |rs|
    ensures forall k :: 0 <= k < |Somes(rs)| ==> SomeIndices(rs)[k] < |rs| && rs[SomeIndices(rs)[k]] == Some(Somes(rs)[k])
    ensures forall j, k :: 0 <= j < k < |SomeIndices(rs)| ==> SomeIndices(rs)[j] < SomeIndices(rs)[k]
    ensures forall i :: 0 <= i < |rs| && rs[i].Some? ==> i in SomeIndices(rs)
    decreases |rs|
  {
    if rs != [] {
      var front := rs[..|rs| - 1];
      SomesInOrder(front);
      forall k | 0 <= k < |SomeIndices(front)|
        ensures SomeIndices(front)[k] < |front| && rs[SomeIndices(front)[k]] == front[SomeIndices(front)[k]]
      {
      }
    }
  }
}
