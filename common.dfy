/**
 * Building blocks shared by every service of the ledger: optional values,
 * the exceptions the services throw (as a Result), the JavaScript string
 * operations the services rely on (trim, toLowerCase, truthiness), and the
 * array operations `find`, `filter` and `Array.from(new Set(...))`.
 */
module Common {

  datatype Option<+T> = None | Some(value: T)

  /** The exception classes the services throw, with their messages. */
  datatype Error =
    | BadRequest(msg: string)       // BadRequestException (400)
    | Unauthorized(msg: string)     // UnauthorizedException (401)
    | Forbidden(msg: string)        // ForbiddenException (403)
    | NotFound(msg: string)         // NotFoundException (404)
    | TooManyRequests(msg: string)  // HttpException with status 429
    | Failure(msg: string)          // a plain `Error`

  datatype Result<+T> = Ok(value: T) | Err(error: Error)

  /** A check that either passes or raises. */
  datatype Outcome = Pass | Fail(error: Error)

  /** JavaScript truthiness of an optional string: undefined and '' are falsy. */
  predicate Truthy(o: Option<string>) {
    o.Some? && o.value != ""
  }

  // ---------------------------------------------------------------------
  // String.prototype.trim and String.prototype.toLowerCase

  /**
   * The white-space and line-terminator characters `trim` removes: tab,
   * vertical tab, form feed, the byte-order mark, the space separators of
   * Unicode category Zs, and the four line terminators.
   */
  predicate IsSpace(c: char) {
    c == ' ' || c == '\t' || c == '\n' || c == '\r' || c == '\U{000B}' || c == '\U{000C}'
    || c == '\U{00A0}' || c == '\U{1680}' || ('\U{2000}' <= c <= '\U{200A}') || c == '\U{2028}'
    || c == '\U{2029}' || c == '\U{202F}' || c == '\U{205F}' || c == '\U{3000}' || c == '\U{FEFF}'
  }

  /** Number of white-space characters at the front of `s`. */
  function LeadingSpaces(s: string): (k: nat)
    ensures k <= |s|
    ensures forall i :: 0 <= i < k ==> IsSpace(s[i])
    ensures k < |s| ==> !IsSpace(s[k])
  {
    if |s| > 0 && IsSpace(s[0]) then 1 + LeadingSpaces(s[1..]) else 0
  }

  /** Number of white-space characters at the back of `s`. */
  function TrailingSpaces(s: string): (k: nat)
    ensures k <= |s|
    ensures forall i :: |s| - k <= i < |s| ==> IsSpace(s[i])
    ensures k < |s| ==> !IsSpace(s[|s| - 1 - k])
  {
    if |s| > 0 && IsSpace(s[|s| - 1]) then 1 + TrailingSpaces(s[..|s| - 1]) else 0
  }

  /** `s.trim()`: the longest infix of `s` that neither starts nor ends with white space. */
  function Trim(s: string): (r: string)
    ensures |r| <= |s|
  {
    var a := LeadingSpaces(s);
    var t := s[a..];
    t[..|t| - TrailingSpaces(t)]
  }

  /** `trim` removes the maximal leading and trailing runs of whitespace and nothing else. */
  lemma TrimSpec(s: string)
    ensures |Trim(s)| > 0 ==> !IsSpace(Trim(s)[0]) && !IsSpace(Trim(s)[|Trim(s)| - 1])
    ensures LeadingSpaces(s) + |Trim(s)| <= |s| && Trim(s) == s[LeadingSpaces(s)..LeadingSpaces(s) + |Trim(s)|]
    ensures forall k :: LeadingSpaces(s) + |Trim(s)| <= k < |s| ==> IsSpace(s[k])
  {
    TrimEnds(s);
    TrimInfix(s);
    TrimTail(s);
  }

  lemma TrimEnds(s: string)
    ensures |Trim(s)| > 0 ==> !IsSpace(Trim(s)[0]) && !IsSpace(Trim(s)[|Trim(s)| - 1])
  {
    var a := LeadingSpaces(s);
    var t := s[a..];
    var b := TrailingSpaces(t);
    var r := t[..|t| - b];
    if |r| > 0 {
      assert r[0] == s[a];
      assert r[|r| - 1] == t[|t| - 1 - b];
    }
  }

  lemma TrimInfix(s: string)
    ensures LeadingSpaces(s) + |Trim(s)| <= |s| && Trim(s) == s[LeadingSpaces(s)..LeadingSpaces(s) + |Trim(s)|]
  {
    var a := LeadingSpaces(s);
    SliceOfSuffix(s, a, |s[a..]| - TrailingSpaces(s[a..]));
  }

  /** A prefix of a suffix is an infix. */
  lemma SliceOfSuffix<T>(s: seq<T>, a: nat, m: nat)
    requires a + m <= |s|
    ensures s[a..][..m] == s[a..a + m]
  {
  }

  lemma TrimTail(s: string)
    ensures forall k :: LeadingSpaces(s) + |Trim(s)| <= k < |s| ==> IsSpace(s[k])
  {
    var a := LeadingSpaces(s);
    var t := s[a..];
    var r := t[..|t| - TrailingSpaces(t)];
    forall k | a + |r| <= k < |s| ensures IsSpace(s[k]) {
      assert s[k] == t[k - a];
    }
  }

  /** A string is blank when `trim` leaves nothing of it. */
  predicate IsBlank(s: string) {
    Trim(s) == ""
  }

  /** `x?.trim() || undefined`: the trimmed string, or nothing when it is absent or blank. */
  function TrimmedOrNone(x: Option<string>): Option<string> {
    if x.Some? && Trim(x.value) != "" then Some(Trim(x.value)) else None
  }

  lemma BlankIffAllSpace(s: string)
    ensures IsBlank(s) <==> forall k :: 0 <= k < |s| ==> IsSpace(s[k])
  {
    if !IsBlank(s) {
      var r := Trim(s);
      assert s[LeadingSpaces(s)] == r[0];
    }
  }

  lemma {:induction false} TrimIdempotent(s: string)
    ensures Trim(Trim(s)) == Trim(s)
  {
    var r := Trim(s);
    assert LeadingSpaces(r) == 0;
    assert TrailingSpaces(r) == 0;
  }

  function LowerChar(c: char): (d: char)
    ensures 'A' <= c <= 'Z' ==> 'a' <= d <= 'z'
    ensures !('A' <= c <= 'Z') ==> d == c
  {
    if 'A' <= c <= 'Z' then (c as int + 32) as char else c
  }

  /** `s.toLowerCase()` restricted to the ASCII letters. */
  function ToLower(s: string): (r: string)
    ensures |r| == |s|
    ensures forall i :: 0 <= i < |s| ==> r[i] == LowerChar(s[i])
  {
    seq(|s|, i requires 0 <= i < |s| => LowerChar(s[i]))
  }

  /** `email.trim().toLowerCase()`: the form in which emails are stored and compared. */
  function NormalizeEmail(s: string): string {
    ToLower(Trim(s))
  }

  // ---------------------------------------------------------------------
  // Array.prototype.find / filter, and Array.from(new Set(xs))

  /** Index of the first element satisfying `p` (what `find` returns). */
  function FirstWhere<T>(s: seq<T>, p: T -> bool): (r: Option<nat>)
    ensures r.Some? ==> r.value < |s| && p(s[r.value])
    ensures r.Some? ==> forall j :: 0 <= j < r.value ==> !p(s[j])
    ensures r.None? <==> forall j :: 0 <= j < |s| ==> !p(s[j])
  {
    if |s| == 0 then None
    else if p(s[0]) then Some(0)
    else match FirstWhere(s[1..], p)
      case None => None
      case Some(k) => Some(k + 1)
  }

  /** `s.filter(p)`: the elements of `s` satisfying `p`, in their order. */
  function Filter<T>(s: seq<T>, p: T -> bool): (r: seq<T>)
    ensures |r| <= |s|
    ensures forall i :: 0 <= i < |r| ==> r[i] in s && p(r[i])
    ensures forall i :: 0 <= i < |s| && p(s[i]) ==> s[i] in r
  {
    if |s| == 0 then []
    else if p(s[|s| - 1]) then Filter(s[..|s| - 1], p) + [s[|s| - 1]]
    else Filter(s[..|s| - 1], p)
  }

  lemma {:induction false} FilterConcat<T>(a: seq<T>, b: seq<T>, p: T -> bool)
    ensures Filter(a + b, p) == Filter(a, p) + Filter(b, p)
  {
    if |b| > 0 {
      assert (a + b)[..|a + b| - 1] == a + b[..|b| - 1];
      FilterConcat(a, b[..|b| - 1], p);
    } else {
      assert a + b == a;
    }
  }

  lemma {:induction false} FilterNone<T>(s: seq<T>, p: T -> bool)
    requires forall i :: 0 <= i < |s| ==> !p(s[i])
    ensures Filter(s, p) == []
  {
    if |s| > 0 {
      FilterNone(s[..|s| - 1], p);
    }
  }

  lemma {:induction false} FilterAll<T>(s: seq<T>, p: T -> bool)
    requires forall i :: 0 <= i < |s| ==> p(s[i])
    ensures Filter(s, p) == s
  {
    if |s| > 0 {
      FilterAll(s[..|s| - 1], p);
    }
  }

  /** Filtering first by a weaker condition changes nothing (so filtering is idempotent). */
  lemma {:induction false} FilterFilter<T>(s: seq<T>, p: T -> bool, q: T -> bool)
    requires forall x :: p(x) ==> q(x)
    ensures Filter(Filter(s, q), p) == Filter(s, p)
  {
    if |s| > 0 {
      var init := s[..|s| - 1];
      FilterFilter(init, p, q);
      if q(s[|s| - 1]) {
        FilterConcat(Filter(init, q), [s[|s| - 1]], p);
      }
    }
  }

  /** A filter keeps a first element that passes as its own first element. */
  lemma FilterHead<T>(s: seq<T>, p: T -> bool)
    requires |s| > 0 && p(s[0])
    ensures Filter(s, p) == [s[0]] + Filter(s[1..], p)
  {
    assert s == [s[0]] + s[1..];
    FilterConcat([s[0]], s[1..], p);
    assert Filter([s[0]], p) == [s[0]];
  }

  /** Characters that `trim` removes never pass a filter that rejects white space. */
  lemma FilterIgnoresTrim(s: string, p: char -> bool)
    requires forall c :: IsSpace(c) ==> !p(c)
    ensures Filter(Trim(s), p) == Filter(s, p)
  {
    var a := LeadingSpaces(s);
    var t := s[a..];
    var m := |t| - TrailingSpaces(t);
    forall i | 0 <= i < a ensures !p(s[i]) {
      assert IsSpace(s[i]);
    }
    FilterDropFront(s, a, p);
    forall i | m <= i < |t| ensures !p(t[i]) {
      assert IsSpace(t[i]);
    }
    FilterDropBack(t, m, p);
  }

  /** Dropping a prefix that the predicate rejects does not change the filter. */
  lemma FilterDropFront<T>(s: seq<T>, a: nat, p: T -> bool)
    requires a <= |s| && forall i :: 0 <= i < a ==> !p(s[i])
    ensures Filter(s[a..], p) == Filter(s, p)
  {
    assert s == s[..a] + s[a..];
    FilterConcat(s[..a], s[a..], p);
    FilterNone(s[..a], p);
  }

  /** Dropping a suffix that the predicate rejects does not change the filter. */
  lemma FilterDropBack<T>(s: seq<T>, m: nat, p: T -> bool)
    requires m <= |s| && forall i :: m <= i < |s| ==> !p(s[i])
    ensures Filter(s[..m], p) == Filter(s, p)
  {
    assert s == s[..m] + s[m..];
    FilterConcat(s[..m], s[m..], p);
    FilterNone(s[m..], p);
  }

  /** Filtering depends only on what the predicate answers. */
  lemma {:induction false} FilterExt<T>(s: seq<T>, p: T -> bool, q: T -> bool)
    requires forall x :: p(x) == q(x)
    ensures Filter(s, p) == Filter(s, q)
  {
    if |s| > 0 { FilterExt(s[..|s| - 1], p, q); }
  }

  /** Filtering by `p` and by its negation `q` splits `s` into two parts. */
  lemma {:induction false} FilterPartition<T>(s: seq<T>, p: T -> bool, q: T -> bool)
    requires forall x :: q(x) <==> !p(x)
    ensures |Filter(s, p)| + |Filter(s, q)| == |s|
  {
    if |s| > 0 {
      FilterPartition(s[..|s| - 1], p, q);
    }
  }

  predicate NoDup<T(==)>(s: seq<T>) {
    forall i, j :: 0 <= i < j < |s| ==> s[i] != s[j]
  }

  /** `Array.from(new Set(s))`: the first occurrence of every element, in order. */
  function Dedup<T(==)>(s: seq<T>): (r: seq<T>)
    ensures NoDup(r)
    ensures forall i :: 0 <= i < |r| ==> r[i] in s
    ensures forall i :: 0 <= i < |s| ==> s[i] in r
    ensures |r| <= |s|
  {
    if |s| == 0 then []
    else
      var d := Dedup(s[..|s| - 1]);
      if s[|s| - 1] in d then d else d + [s[|s| - 1]]
  }

  lemma {:induction false} DedupOfNoDup<T>(s: seq<T>)
    requires NoDup(s)
    ensures Dedup(s) == s
  {
    if |s| > 0 {
      DedupOfNoDup(s[..|s| - 1]);
      assert s[|s| - 1] !in s[..|s| - 1];
    }
  }

  /** Appending an element already present leaves `Dedup` alone; a new one is added at the end. */
  lemma DedupSnoc<T>(s: seq<T>, x: T)
    ensures x in s ==> Dedup(s + [x]) == Dedup(s)
    ensures x !in s ==> Dedup(s + [x]) == Dedup(s) + [x]
  {
    assert (s + [x])[..|s|] == s;
    if x in s {
      var i :| 0 <= i < |s| && s[i] == x;
      assert x in Dedup(s);
    }
  }

  // ---------------------------------------------------------------------
  // Records used as dictionaries: `m[k]`, assignment and `delete m[k]`

  /** `m[k]`: the entry for `k`, or undefined. */
  function Get<K, V>(m: map<K, V>, k: K): (r: Option<V>)
    ensures r.Some? <==> k in m
    ensures r.Some? ==> r.value == m[k]
  {
    if k in m then Some(m[k]) else None
  }

  /** A second write to the same key replaces the first. */
  lemma PutPut<K, V>(m: map<K, V>, k: K, a: Option<V>, b: Option<V>)
    ensures Put(Put(m, k, a), k, b) == Put(m, k, b)
  {
    var x, y := Put(Put(m, k, a), k, b), Put(m, k, b);
    assert x.Keys == y.Keys;
  }

  /** Setting a key and then deleting it is deleting it. */
  lemma DeleteAfterSet<K, V>(m: map<K, V>, k: K, v: V)
    ensures m[k := v] - {k} == m - {k}
  {
    var a, b := m[k := v] - {k}, m - {k};
    assert a.Keys == b.Keys;
    assert forall j :: j in a ==> a[j] == b[j];
  }

  /** Store `v` under `k`, or delete the key when `v` is undefined. */
  function Put<K, V>(m: map<K, V>, k: K, v: Option<V>): (r: map<K, V>)
    ensures Get(r, k) == v
    ensures forall j :: j in m && j != k ==> j in r && r[j] == m[j]
    ensures forall j :: j in r && j != k ==> j in m
  {
    if v.Some? then m[k := v.value] else m - {k}
  }

  /** `xs.join(sep)`. */
  function Join(xs: seq<string>, sep: string): string
    decreases |xs|
  {
    if |xs| == 0 then ""
    else if |xs| == 1 then xs[0]
    else Join(xs[..|xs| - 1], sep) + sep + xs[|xs| - 1]
  }
}
