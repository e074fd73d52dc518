/**
 * Vocabulary shared by the backend handlers and the frontend reducers:
 * JavaScript truthiness of optional values, the array updates the handlers
 * use (Mongoose `pull` / `Array.prototype.filter` with `!==`, Mongoose
 * `addToSet`, JavaScript `slice`), and the string operations they call
 * (`trim`, `toLowerCase`, `includes`).
 */
module Common {

  type Id = string

  datatype Option<T> = None | Some(value: T)

  /** What `new URL(text)` yields, as far as the handlers read it: the
      TypeError it throws, or the protocol (with its colon) and host name. */
  datatype ParsedUrl = Unparsable | Url(protocol: string, hostname: string)

  /** JavaScript truthiness of an optional string: `undefined`, `null` and `""` are falsy. */
  predicate Truthy(s: Option<string>)
  {
    s.Some? && s.value != ""
  }

  /** `s || d` for an optional string. */
  function OrElse(s: Option<string>, d: string): string
  {
    if Truthy(s) then s.value else d
  }

  /** JavaScript truthiness of an optional number (`0` is falsy). */
  predicate TruthyNum(n: Option<int>)
  {
    n.Some? && n.value != 0
  }

  /** `n || d` for an optional number. */
  function NumOrElse(n: Option<int>, d: int): int
  {
    if TruthyNum(n) then n.value else d
  }

  // ---------------------------------------------------------------- arrays

  predicate NoDup<T(==)>(s: seq<T>)
  {
    forall i, j :: 0 <= i < j < |s| ==> s[i] != s[j]
  }

  /** `s.filter(v => v !== x)`, which is also what Mongoose `pull(x)` and
      `$pull` do: every occurrence of `x` disappears and the rest keep
      their order and their multiplicity. */
  function Pull<T(==)>(s: seq<T>, x: T): (r: seq<T>)
    ensures multiset(r) == multiset(s)[x := 0]
    ensures x !in r
  {
    if s == [] then []
    else
      assert s == [s[0]] + s[1..];
      (if s[0] == x then [] else [s[0]]) + Pull(s[1..], x)
  }

  /** Mongoose `addToSet` / `$addToSet`: `x` is appended unless already present. */
  function AddToSet<T(==)>(s: seq<T>, x: T): (r: seq<T>)
    ensures x in r
    ensures multiset(r) == multiset(s)[x := if x in s then multiset(s)[x] else 1]
    ensures |s| <= |r| && r[..|s|] == s
  {
    if x in s then s else s + [x]
  }

  /** What `pull` keeps: every other element. */
  lemma PullMembers<T>(s: seq<T>, x: T, y: T)
    ensures y in Pull(s, x) <==> y in s && y != x
  {
    assert multiset(Pull(s, x))[y] > 0 <==> multiset(s)[y] > 0 && y != x;
  }

  lemma {:induction false} PullAbsent<T>(s: seq<T>, x: T)
    requires x !in s
    ensures Pull(s, x) == s
  {
    if s != [] {
      PullAbsent(s[1..], x);
      assert s == [s[0]] + s[1..];
    }
  }

  lemma {:induction false} PullConcat<T>(a: seq<T>, b: seq<T>, x: T)
    ensures Pull(a + b, x) == Pull(a, x) + Pull(b, x)
  {
    if a != [] {
      var h := if a[0] == x then [] else [a[0]];
      assert (a + b)[0] == a[0] && (a + b)[1..] == a[1..] + b;
      assert Pull(a + b, x) == h + Pull(a[1..] + b, x);
      assert Pull(a, x) == h + Pull(a[1..], x);
      PullConcat(a[1..], b, x);
    } else {
      assert a + b == b;
    }
  }

  /** Appending a fresh element and pulling it again restores the list. */
  lemma PullAppended<T>(s: seq<T>, x: T)
    requires x !in s
    ensures Pull(s + [x], x) == s
  {
    PullConcat(s, [x], x);
    PullAbsent(s, x);
  }

  lemma NoDupCount<T>(s: seq<T>, x: T)
    requires NoDup(s)
    ensures multiset(s)[x] == if x in s then 1 else 0
  {
    if s != [] {
      assert s == [s[0]] + s[1..];
      assert NoDup(s[1..]);
      NoDupCount(s[1..], x);
    } else {
      assert x !in s;
    }
  }

  lemma CountOneNoDup<T>(s: seq<T>)
    requires forall y :: multiset(s)[y] <= 1
    ensures NoDup(s)
  {
    forall i, j | 0 <= i < j < |s| ensures s[i] != s[j] {
      TwoPositions(s, i, j);
    }
  }

  lemma TwoPositions<T>(s: seq<T>, i: nat, j: nat)
    requires i < j < |s|
    ensures s[i] == s[j] ==> multiset(s)[s[i]] >= 2
  {
    assert s == s[..i] + [s[i]] + s[i + 1..j] + [s[j]] + s[j + 1..];
  }

  /** On a duplicate-free list, pulling keeps it duplicate-free and removes
      exactly one element when `x` was there. */
  lemma PullNoDup<T>(s: seq<T>, x: T)
    requires NoDup(s)
    ensures NoDup(Pull(s, x))
    ensures |Pull(s, x)| == if x in s then |s| - 1 else |s|
  {
    forall y ensures multiset(s)[y] <= 1 { NoDupCount(s, y); }
    CountOneNoDup(Pull(s, x));
    NoDupCount(s, x);
    assert |multiset(Pull(s, x))| == |multiset(s)| - multiset(s)[x];
  }

  /** On a duplicate-free list, appending an absent element keeps it duplicate-free. */
  lemma AppendNoDup<T>(s: seq<T>, x: T)
    requires NoDup(s) && x !in s
    ensures NoDup(s + [x])
  {
  }

  /** JavaScript `Array.prototype.slice(start, end)` with negative positions
      counted from the end and everything clamped to the array. */
  function Slice<T>(s: seq<T>, start: int, end: int): (r: seq<T>)
    ensures |r| <= |s|
  {
    var from := Clamp(if start < 0 then |s| + start else start, |s|);
    var to := Clamp(if end < 0 then |s| + end else end, |s|);
    if from < to then s[from..to] else []
  }

  function Clamp(i: int, n: nat): (r: nat)
    ensures r <= n
  {
    if i < 0 then 0 else if i > n then n else i
  }

  /** `Array.prototype.reverse`. */
  function Reverse<T>(s: seq<T>): (r: seq<T>)
    ensures |r| == |s|
    ensures forall i :: 0 <= i < |s| ==> r[i] == s[|s| - 1 - i]
  {
    if s == [] then [] else Reverse(s[1..]) + [s[0]]
  }

  // --------------------------------------------------------------- strings

  /** The characters JavaScript's `trim` and the regular-expression class
      `\s` treat as white space (WhiteSpace and LineTerminator in ECMA-262). */
  predicate IsSpace(c: char)
  {
    c == '\t' || c == '\n' || c == '\U{B}' || c == '\U{C}' || c == '\r' || c == ' '
    || c == '\U{A0}' || c == '\U{1680}' || ('\U{2000}' <= c <= '\U{200A}')
    || c == '\U{2028}' || c == '\U{2029}' || c == '\U{202F}' || c == '\U{205F}'
    || c == '\U{3000}' || c == '\U{FEFF}'
  }

  predicate AllSpace(s: string)
  {
    forall i :: 0 <= i < |s| ==> IsSpace(s[i])
  }

  /** `s` with its leading white space removed. */
  function TrimStart(s: string): (r: string)
    ensures r == "" <==> AllSpace(s)
    ensures r != "" ==> !IsSpace(r[0])
    ensures exists i :: 0 <= i <= |s| && AllSpace(s[..i]) && r == s[i..]
  {
    if s != "" && IsSpace(s[0]) then
      var r := TrimStart(s[1..]);
      assert AllSpace(s[1..]) ==> AllSpace(s) by {
        if AllSpace(s[1..]) { assert forall i :: 1 <= i < |s| ==> s[i] == s[1..][i - 1]; }
      }
      assert exists i :: 0 <= i <= |s| && AllSpace(s[..i]) && r == s[i..] by {
        var u := s[1..];
        var i :| 0 <= i <= |u| && AllSpace(u[..i]) && r == u[i..];
        assert r == s[i + 1..];
        var lead := s[..i + 1];
        var mid := u[..i];
        forall k | 0 <= k < |lead| ensures IsSpace(lead[k]) {
          assert lead[k] == s[k];
          if k > 0 { assert mid[k - 1] == u[k - 1] == s[k]; assert IsSpace(mid[k - 1]); }
        }
      }
      r
    else
      assert AllSpace(s[..0]) && s == s[0..];
      s
  }

  /** `s` with its trailing white space removed. */
  function TrimEnd(s: string): (r: string)
    ensures r == "" <==> AllSpace(s)
    ensures r != "" ==> !IsSpace(r[|r| - 1])
    ensures exists j :: 0 <= j <= |s| && AllSpace(s[j..]) && r == s[..j]
  {
    if s != "" && IsSpace(s[|s| - 1]) then
      var r := TrimEnd(s[..|s| - 1]);
      assert AllSpace(s[..|s| - 1]) ==> AllSpace(s) by {
        if AllSpace(s[..|s| - 1]) { assert forall i :: 0 <= i < |s| - 1 ==> s[i] == s[..|s| - 1][i]; }
      }
      assert exists j :: 0 <= j <= |s| && AllSpace(s[j..]) && r == s[..j] by {
        var u := s[..|s| - 1];
        var j :| 0 <= j <= |u| && AllSpace(u[j..]) && r == u[..j];
        assert r == s[..j];
        var trail := s[j..];
        var mid := u[j..];
        forall k | 0 <= k < |trail| ensures IsSpace(trail[k]) {
          assert trail[k] == s[j + k];
          if k < |mid| { assert mid[k] == u[j + k] == s[j + k]; assert IsSpace(mid[k]); }
        }
      }
      r
    else
      assert AllSpace(s[|s|..]) && s == s[..|s|];
      s
  }

  /** `r` is `s[i..j]` with only white space before `i` and after `j`. */
  predicate CutAt(s: string, r: string, i: int, j: int)
  {
    0 <= i <= j <= |s| && AllSpace(s[..i]) && AllSpace(s[j..]) && r == s[i..j]
  }

  /** `String.prototype.trim`: the input with white space cut from both
      ends, so that what is left starts and ends with a character that is
      not white space; it is empty exactly when the input is all white space. */
  function Trim(s: string): (r: string)
    ensures r == "" <==> AllSpace(s)
    ensures r != "" ==> !IsSpace(r[0]) && !IsSpace(r[|r| - 1])
    ensures exists i, j :: CutAt(s, r, i, j)
  {
    var t := TrimStart(s);
    assert t != "" ==> !AllSpace(t) by { if t != "" { assert !IsSpace(t[0]); } }
    var r := TrimEnd(t);
    assert exists i, j :: CutAt(s, r, i, j) by {
      var i :| 0 <= i <= |s| && AllSpace(s[..i]) && t == s[i..];
      var j :| 0 <= j <= |t| && AllSpace(t[j..]) && r == t[..j];
      CutCompose(s, t, r, i, j);
    }
    assert r != "" ==> r[0] == t[0];
    r
  }

  lemma CutCompose(s: string, t: string, r: string, i: int, j: int)
    requires 0 <= i <= |s| && AllSpace(s[..i]) && t == s[i..]
    requires 0 <= j <= |t| && AllSpace(t[j..]) && r == t[..j]
    ensures CutAt(s, r, i, i + j)
  {
    assert r == s[i..i + j] && t[j..] == s[i + j..];
  }

  function LowerChar(c: char): char
  {
    if 'A' <= c <= 'Z' then (c as int + 32) as char else c
  }

  /** `String.prototype.toLowerCase`, for the ASCII letters. */
  function ToLower(s: string): (r: string)
    ensures |r| == |s|
    ensures forall i :: 0 <= i < |s| ==> r[i] == LowerChar(s[i])
  {
    if s == "" then "" else [LowerChar(s[0])] + ToLower(s[1..])
  }

  /** Lower-casing twice is lower-casing once. */
  lemma ToLowerIdempotent(s: string)
    ensures ToLower(ToLower(s)) == ToLower(s)
  {
  }

  /** `String.prototype.includes`: `sub` occurs at some position of `s`. */
  predicate Contains(s: string, sub: string)
  {
    exists i :: 0 <= i <= |s| - |sub| && OccursAt(s, sub, i)
  }

  predicate OccursAt(s: string, sub: string, i: int)
  {
    0 <= i <= |s| - |sub| && s[i..i + |sub|] == sub
  }

  // ------------------------------------------------------------ filtering

  /** `Array.prototype.filter`. */
  function Filter<T>(s: seq<T>, f: T -> bool): (r: seq<T>)
    ensures |r| <= |s|
    ensures forall i :: 0 <= i < |r| ==> f(r[i])
  {
    if s == [] then [] else (if f(s[0]) then [s[0]] else []) + Filter(s[1..], f)
  }

  /** `a` is `b` with some elements left out, the rest kept in order. */
  predicate IsSubseq<T(==)>(a: seq<T>, b: seq<T>)
  {
    if a == [] then true
    else if b == [] then false
    else if a[0] == b[0] then IsSubseq(a[1..], b[1..])
    else IsSubseq(a, b[1..])
  }

  /** A filtered list keeps its survivors in their original order. */
  lemma {:induction false} FilterIsSubseq<T>(s: seq<T>, f: T -> bool)
    ensures IsSubseq(Filter(s, f), s)
  {
    if s != [] {
      FilterIsSubseq(s[1..], f);
      if !f(s[0]) {
        assert Filter(s, f) == Filter(s[1..], f);
        SkipHead(Filter(s[1..], f), s);
      }
    }
  }

  /** A subsequence of the tail is a subsequence of the whole list. */
  lemma {:induction false} SkipHead<T>(a: seq<T>, b: seq<T>)
    requires b != [] && IsSubseq(a, b[1..])
    ensures IsSubseq(a, b)
    decreases |b|, 0
  {
    if a != [] && a[0] == b[0] {
      DropFirst(a, b[1..]);
    }
  }

  /** Leaving out the first element of a subsequence keeps it a subsequence. */
  lemma {:induction false} DropFirst<T>(a: seq<T>, c: seq<T>)
    requires a != [] && IsSubseq(a, c)
    ensures IsSubseq(a[1..], c)
    decreases |c|, 1
  {
    if a[0] == c[0] {
      if a[1..] != [] {
        SkipHead(a[1..], c);
      }
    } else {
      DropFirst(a, c[1..]);
      if a[1..] != [] {
        SkipHead(a[1..], c);
      }
    }
  }

  /** An element survives the filter iff it is in the list and passes. */
  lemma {:induction false} FilterMembers<T>(s: seq<T>, f: T -> bool, x: T)
    ensures x in Filter(s, f) <==> x in s && f(x)
  {
    if s != [] {
      FilterMembers(s[1..], f, x);
      assert s == [s[0]] + s[1..];
    }
  }

  /** A filter that lets everything pass returns the list itself. */
  lemma {:induction false} FilterAll<T>(s: seq<T>, f: T -> bool)
    requires forall i :: 0 <= i < |s| ==> f(s[i])
    ensures Filter(s, f) == s
  {
    if s != [] {
      FilterAll(s[1..], f);
      assert s == [s[0]] + s[1..];
    }
  }
}
