/** Small value types and string helpers shared by the other modules.
    The string helpers stand for the JavaScript string methods the source
    calls (`startsWith`, `includes`, `trim`, `toLowerCase`), restricted to
    the ASCII behaviour of those methods. */
module Common {

  datatype Option<+T> = None | Some(value: T)

  /** JavaScript `a || b` on an optional string: an absent or empty string is falsy. */
  function OrElse(a: Option<string>, b: string): (r: string)
    ensures a.Some? && a.value != "" ==> r == a.value
    ensures (a.None? || a.value == "") ==> r == b
  {
    if a.Some? && a.value != "" then a.value else b
  }

  /** `s.startsWith(p)`. */
  predicate StartsWith(s: string, p: string)
  {
    |p| <= |s| && s[..|p|] == p
  }

  /** `s.includes(sub)`: some position of `s` starts a copy of `sub`. */
  predicate Includes(s: string, sub: string)
    decreases |s|
  {
    StartsWith(s, sub) || (|s| > 0 && Includes(s[1..], sub))
  }

  lemma {:induction false} IncludesAt(s: string, sub: string, i: nat)
    requires i + |sub| <= |s| && s[i..i + |sub|] == sub
    ensures Includes(s, sub)
    decreases i
  {
    if i == 0 {
      assert s[..|sub|] == sub;
    } else {
      assert s[1..][i - 1..i - 1 + |sub|] == s[i..i + |sub|];
      IncludesAt(s[1..], sub, i - 1);
    }
  }

  lemma {:induction false} IncludesWitness(s: string, sub: string) returns (i: nat)
    requires Includes(s, sub)
    ensures i + |sub| <= |s| && s[i..i + |sub|] == sub
    decreases |s|
  {
    if StartsWith(s, sub) {
      i := 0;
    } else {
      var j := IncludesWitness(s[1..], sub);
      assert s[1..][j..j + |sub|] == s[j + 1..j + 1 + |sub|];
      i := j + 1;
    }
  }

  /** The white-space characters `String.prototype.trim` removes, ASCII part. */
  predicate IsSpace(c: char)
  {
    c == ' ' || c == '\t' || c == '\n' || c == '\r' || c == '\U{000B}' || c == '\U{000C}'
  }

  function TrimStart(s: string): (r: string)
    ensures |r| <= |s| && r == s[|s| - |r|..]
    ensures r == [] || !IsSpace(r[0])
    ensures forall i :: 0 <= i < |s| - |r| ==> IsSpace(s[i])
  {
    if |s| > 0 && IsSpace(s[0]) then TrimStart(s[1..]) else s
  }

  function TrimEnd(s: string): (r: string)
    ensures |r| <= |s| && r == s[..|r|]
    ensures r == [] || !IsSpace(r[|r| - 1])
    ensures forall i :: |r| <= i < |s| ==> IsSpace(s[i])
  {
    if |s| > 0 && IsSpace(s[|s| - 1]) then TrimEnd(s[..|s| - 1]) else s
  }

  /** `s.trim()`: the result is a slice of `s` with no white space at either end,
      and everything cut off was white space. */
  function Trim(s: string): (r: string)
    ensures r == [] || (!IsSpace(r[0]) && !IsSpace(r[|r| - 1]))
    ensures var k := |s| - |TrimStart(s)|; k + |r| <= |s| && r == s[k..k + |r|]
    ensures forall i :: 0 <= i < |s| - |TrimStart(s)| ==> IsSpace(s[i])
  {
    TrimEnd(TrimStart(s))
  }

  /** `toLowerCase` on one character (ASCII letters only). */
  function LowerChar(c: char): (r: char)
    ensures 'A' <= c <= 'Z' ==> 'a' <= r <= 'z'
    ensures !('A' <= c <= 'Z') ==> r == c
  {
    if 'A' <= c <= 'Z' then (c as int + 32) as char else c
  }

  function Lower(s: string): (r: string)
    ensures |r| == |s|
    ensures forall i :: 0 <= i < |s| ==> r[i] == LowerChar(s[i])
  {
    if s == [] then [] else [LowerChar(s[0])] + Lower(s[1..])
  }

  /** Appends `v` to the list kept for every key of `keys`; the other lists stay as they are.
      Used for per-connection message logs and per-PTY operation logs. */
  function AppendAt<K, V>(m: map<K, seq<V>>, keys: set<K>, v: V): (r: map<K, seq<V>>)
    ensures r.Keys == m.Keys
    ensures forall k :: k in m && k in keys ==> r[k] == m[k] + [v]
    ensures forall k :: k in m && k !in keys ==> r[k] == m[k]
  {
    map k | k in m :: if k in keys then m[k] + [v] else m[k]
  }

  /** One more key handled by `AppendAt`. */
  lemma AppendAtStep<K, V>(m: map<K, seq<V>>, keys: set<K>, k: K, v: V)
    requires k in m && k !in keys
    ensures AppendAt(m, keys + {k}, v) == AppendAt(m, keys, v)[k := AppendAt(m, keys, v)[k] + [v]]
  {
    var a, b := AppendAt(m, keys + {k}, v), AppendAt(m, keys, v)[k := AppendAt(m, keys, v)[k] + [v]];
    assert a.Keys == b.Keys;
    forall j | j in a ensures a[j] == b[j] {
    }
  }
}
