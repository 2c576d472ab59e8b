/**
 * Values shared by the screen models: optional values, the outcome of one
 * call to the remote API, the result of reading and decoding the stored
 * token, and the few JavaScript array and string operations the screens use
 * (filter, join, lower/upper case).
 */
module Common {

  datatype Option<T> = None | Some(value: T)

  /**
   * The outcome of one awaited API call as a screen sees it: the response
   * body says `success: true` (with its payload), the body says
   * `success: false` (with its `message`), or the call threw.  A missing
   * message and an empty one are both the empty string.
   */
  datatype Outcome<T> = Success(data: T) | Failure(message: string) | Threw(message: string)

  /** The claims carried by a decoded token. */
  datatype Claims = Claims(roles: string, rollNo: string)

  /** Reading the stored token and decoding it. */
  datatype TokenRead = NoToken | DecodeFailed | Decoded(claims: Claims)

  /** An alert, toast or flash message: its title (or kind) and its text. */
  datatype Alert = Alert(title: string, message: string)

  /** `s || fallback` on strings: the fallback replaces only the empty string. */
  function OrElse(s: string, fallback: string): (r: string)
    ensures s != "" ==> r == s
    ensures s == "" ==> r == fallback
  {
    if s != "" then s else fallback
  }

  /** A JavaScript `Date`; only its identity matters here (it is always truthy). */
  datatype Date = Date(stamp: int)

  /** An uploaded or picked file; only its identity matters here. */
  datatype FileRef = FileRef(name: string, uri: string)

  // ---------------------------------------------------------------------
  // Array.prototype.filter

  /** `a` is an order-preserving subsequence of `b`. */
  ghost predicate IsSubsequence<T>(a: seq<T>, b: seq<T>)
    decreases |b|
  {
    a == [] || (b != [] && ((a[0] == b[0] && IsSubsequence(a[1..], b[1..])) || IsSubsequence(a, b[1..])))
  }

  /**
   * `s.filter(p)`: keeps, in order, exactly the elements that satisfy `p`,
   * each as often as it occurs in `s`.
   */
  function Filter<T(!new)>(s: seq<T>, p: T -> bool): (r: seq<T>)
    ensures |r| <= |s|
    ensures (exists x :: x in s && !p(x)) ==> |r| < |s|
    ensures forall x :: x in r <==> x in s && p(x)
    ensures forall x {:trigger multiset(r)[x]} :: multiset(r)[x] == if p(x) then multiset(s)[x] else 0
    ensures IsSubsequence(r, s)
  {
    if s == [] then []
    else
      var rest := Filter(s[1..], p);
      assert s == [s[0]] + s[1..];
      if p(s[0]) then
        var r := [s[0]] + rest;
        assert r[1..] == rest;
        r
      else
        rest
  }

  lemma {:induction false} FilterKeepsAll<T(!new)>(s: seq<T>, p: T -> bool)
    requires forall x :: x in s ==> p(x)
    ensures Filter(s, p) == s
  {
    if s != [] {
      FilterKeepsAll(s[1..], p);
    }
  }

  lemma {:induction false} FilterAppend<T(!new)>(a: seq<T>, b: seq<T>, p: T -> bool)
    ensures Filter(a + b, p) == Filter(a, p) + Filter(b, p)
  {
    if a == [] {
      assert a + b == b;
    } else {
      assert (a + b)[1..] == a[1..] + b;
      FilterAppend(a[1..], b, p);
    }
  }

  // ---------------------------------------------------------------------
  // Array.prototype.join

  /** `xs.join(sep)` over strings. */
  function Join(xs: seq<string>, sep: string): (r: string)
    ensures |xs| == 0 ==> r == ""
    ensures |xs| == 1 ==> r == xs[0]
    ensures |xs| > 0 ==> xs[0] <= r
    ensures |xs| > 1 ==> |r| >= |xs[0]| + |sep| && r[..|xs[0]| + |sep|] == xs[0] + sep
  {
    if |xs| == 0 then ""
    else if |xs| == 1 then xs[0]
    else xs[0] + sep + Join(xs[1..], sep)
  }

  /**
   * With a non-empty separator the joined text is empty exactly when there
   * is nothing to join or the one item is itself empty.
   */
  lemma JoinEmptyIff(xs: seq<string>, sep: string)
    requires sep != ""
    ensures Join(xs, sep) == "" <==> |xs| == 0 || (|xs| == 1 && xs[0] == "")
  {
  }

  /** Joining one more item appends the separator and that item. */
  lemma {:induction false} JoinAppend(xs: seq<string>, x: string, sep: string)
    requires |xs| > 0
    ensures Join(xs + [x], sep) == Join(xs, sep) + sep + x
  {
    if |xs| > 1 {
      assert (xs + [x])[1..] == xs[1..] + [x];
      JoinAppend(xs[1..], x, sep);
    }
  }

  // ---------------------------------------------------------------------
  // String case (ASCII letters only)

  predicate IsUpperChar(c: char) { 'A' <= c <= 'Z' }
  predicate IsLowerChar(c: char) { 'a' <= c <= 'z' }

  function LowerChar(c: char): (d: char)
    ensures !IsUpperChar(d)
    ensures !IsUpperChar(c) ==> d == c
    ensures IsUpperChar(c) ==> IsLowerChar(d) && d as int == c as int + 32
  {
    if IsUpperChar(c) then (c as int + 32) as char else c
  }

  function UpperChar(c: char): (d: char)
    ensures !IsLowerChar(d)
    ensures !IsLowerChar(c) ==> d == c
    ensures IsLowerChar(c) ==> IsUpperChar(d) && d as int == c as int - 32
  {
    if IsLowerChar(c) then (c as int - 32) as char else c
  }

  /** `s.toLowerCase()`, restricted to ASCII letters. */
  function ToLower(s: string): (r: string)
    ensures |r| == |s|
    ensures forall i :: 0 <= i < |s| ==> r[i] == LowerChar(s[i])
    ensures forall i :: 0 <= i < |r| ==> !IsUpperChar(r[i])
    ensures (forall i :: 0 <= i < |s| ==> !IsUpperChar(s[i])) ==> r == s
  {
    seq(|s|, i requires 0 <= i < |s| => LowerChar(s[i]))
  }

  /** Lower-casing twice is lower-casing once. */
  lemma ToLowerIdempotent(s: string)
    ensures ToLower(ToLower(s)) == ToLower(s)
  {
  }
}
