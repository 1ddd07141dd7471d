/** The JavaScript string primitives the application relies on: `String.prototype.trim`,
    `Array.prototype.join` on string arrays, and repeated `+=` of streamed fragments. */
module JsString {

  /** The characters `trim` removes: ECMAScript's WhiteSpace (tab, vertical tab, form feed,
      no-break space, byte order mark and every Unicode space separator) and LineTerminator
      (line feed, carriage return, line and paragraph separator). */
  predicate IsWhitespace(c: char) {
    || c == '\t' || c == '\n' || c == '\U{000B}' || c == '\U{000C}' || c == '\r'
    || c == ' ' || c == '\U{00A0}' || c == '\U{1680}'
    || ('\U{2000}' <= c <= '\U{200A}')
    || c == '\U{2028}' || c == '\U{2029}' || c == '\U{202F}' || c == '\U{205F}'
    || c == '\U{3000}' || c == '\U{FEFF}'
  }

  predicate AllWhitespace(s: string) {
    forall k :: 0 <= k < |s| ==> IsWhitespace(s[k])
  }

  /** The first index at or after `i` that does not hold whitespace (`|s|` when none). */
  function SkipLeading(s: string, i: nat): (k: nat)
    requires i <= |s|
    ensures i <= k <= |s|
    ensures forall m :: i <= m < k ==> IsWhitespace(s[m])
    ensures k == |s| || !IsWhitespace(s[k])
    decreases |s| - i
  {
    if i < |s| && IsWhitespace(s[i]) then SkipLeading(s, i + 1) else i
  }

  /** The end of `s[lo..j]` once its whitespace suffix is dropped. */
  function SkipTrailing(s: string, lo: nat, j: nat): (k: nat)
    requires lo <= j <= |s|
    ensures lo <= k <= j
    ensures forall m :: k <= m < j ==> IsWhitespace(s[m])
    ensures k == lo || !IsWhitespace(s[k - 1])
    decreases j
  {
    if lo < j && IsWhitespace(s[j - 1]) then SkipTrailing(s, lo, j - 1) else j
  }

  /** `String.prototype.trim`: never longer than its input, and a non-empty result neither
      starts nor ends with whitespace. */
  function Trim(s: string): (r: string)
    ensures |r| <= |s|
    ensures r == [] || (!IsWhitespace(r[0]) && !IsWhitespace(r[|r| - 1]))
  {
    var i := SkipLeading(s, 0);
    s[i..SkipTrailing(s, i, |s|)]
  }

  /** `s[i..j]` is what is left of `s` once whitespace is stripped from both ends: everything
      before `i` and from `j` on is whitespace, and a non-empty remainder starts and ends with
      a character that is not. */
  ghost predicate TrimBounds(s: string, i: nat, j: nat) {
    && i <= j <= |s|
    && (forall k :: 0 <= k < i ==> IsWhitespace(s[k]))
    && (forall k :: j <= k < |s| ==> IsWhitespace(s[k]))
    && (i < j ==> !IsWhitespace(s[i]) && !IsWhitespace(s[j - 1]))
  }

  /** What trimming means: `Trim(s)` is the slice of `s` between bounds of that kind. */
  lemma TrimSpec(s: string) returns (i: nat, j: nat)
    ensures TrimBounds(s, i, j) && Trim(s) == s[i..j]
  {
    i := SkipLeading(s, 0);
    j := SkipTrailing(s, i, |s|);
  }

  /** Such bounds are unique, except that an all-whitespace string may be cut anywhere
      (every cut leaves the same empty remainder). */
  lemma TrimBoundsUnique(s: string, i1: nat, j1: nat, i2: nat, j2: nat)
    requires TrimBounds(s, i1, j1) && TrimBounds(s, i2, j2)
    ensures s[i1..j1] == s[i2..j2]
  {
  }

  /** A string is blank after trimming exactly when every character of it is whitespace. */
  lemma TrimBlank(s: string)
    ensures Trim(s) == [] <==> AllWhitespace(s)
  {
    var i, j := TrimSpec(s);
    if i < j {
      assert s[i..j][0] == s[i];
    }
  }

  /** A string that neither starts nor ends with whitespace is left as it is. */
  lemma TrimUntouched(s: string)
    requires s == [] || (!IsWhitespace(s[0]) && !IsWhitespace(s[|s| - 1]))
    ensures Trim(s) == s
  {
    var i, j := TrimSpec(s);
    assert TrimBounds(s, 0, |s|);
    TrimBoundsUnique(s, i, j, 0, |s|);
    assert s[0..|s|] == s;
  }

  /** Trimming twice is trimming once. */
  lemma TrimIdempotent(s: string)
    ensures Trim(Trim(s)) == Trim(s)
  {
    var i, j := TrimSpec(s);
    if i < j {
      assert Trim(s)[0] == s[i] && Trim(s)[|Trim(s)| - 1] == s[j - 1];
    }
    TrimUntouched(Trim(s));
  }

  /** The number of characters in all of `parts` together. */
  function TotalLength(parts: seq<string>): (n: nat) {
    if parts == [] then 0 else |parts[0]| + TotalLength(parts[1..])
  }

  /** `parts.join(sep)`: the parts in order with `sep` between neighbours, so the result has
      every character of every part and one separator per gap, and nothing else. */
  function Join(parts: seq<string>, sep: string): (r: string)
    ensures |parts| > 0 ==> |r| == TotalLength(parts) + (|parts| - 1) * |sep|
    ensures |parts| > 0 ==> parts[0] <= r
    decreases |parts|
  {
    if |parts| == 0 then ""
    else if |parts| == 1 then parts[0]
    else parts[0] + sep + Join(parts[1..], sep)
  }

  /** Adding one more part adds the separator and that part at the end. */
  lemma {:induction false} JoinSnoc(parts: seq<string>, p: string, sep: string)
    requires |parts| > 0
    ensures Join(parts + [p], sep) == Join(parts, sep) + sep + p
    decreases |parts|
  {
    if |parts| > 1 {
      assert (parts + [p])[1..] == parts[1..] + [p];
      JoinSnoc(parts[1..], p, sep);
    }
  }

  /** With a non-empty separator, a join is empty only when there is nothing to join or
      the single part is itself empty. */
  lemma JoinEmpty(parts: seq<string>, sep: string)
    requires sep != ""
    ensures Join(parts, sep) == "" <==> (parts == [] || parts == [""])
  {
    if |parts| > 1 {
      assert |Join(parts, sep)| >= |sep|;
    }
  }

  /** Counting one more part at the end adds its length. */
  lemma {:induction false} TotalLengthSnoc(parts: seq<string>, p: string)
    ensures TotalLength(parts + [p]) == TotalLength(parts) + |p|
    decreases |parts|
  {
    if parts != [] {
      assert (parts + [p])[1..] == parts[1..] + [p];
      TotalLengthSnoc(parts[1..], p);
    }
  }

  /** The text built up by appending each fragment with `+=`, first to last: exactly as long
      as all fragments together, so no fragment is lost or repeated. */
  function Concat(fragments: seq<string>): (r: string)
    ensures |r| == TotalLength(fragments)
    decreases |fragments|
  {
    if fragments == [] then ""
    else
      var init, last := fragments[..|fragments| - 1], fragments[|fragments| - 1];
      TotalLengthSnoc(init, last);
      assert init + [last] == fragments;
      Concat(init) + last
  }

  /** Appending fragments one after another is the join of all of them with no separator:
      nothing is dropped, reordered or inserted. */
  lemma {:induction false} ConcatIsJoin(fragments: seq<string>)
    ensures Concat(fragments) == Join(fragments, "")
    decreases |fragments|
  {
    if |fragments| > 1 {
      var init := fragments[..|fragments| - 1];
      ConcatIsJoin(init);
      JoinSnoc(init, fragments[|fragments| - 1], "");
      assert init + [fragments[|fragments| - 1]] == fragments;
    } else if |fragments| == 1 {
      assert fragments[..0] == [];
    }
  }

  /** The text grown from two runs of fragments is the text of the first run followed by the
      text of the second. */
  lemma {:induction false} ConcatAppend(a: seq<string>, b: seq<string>)
    ensures Concat(a + b) == Concat(a) + Concat(b)
    decreases |b|
  {
    if b == [] {
      assert a + b == a;
    } else {
      var init, last := b[..|b| - 1], b[|b| - 1];
      assert (a + b)[..|a + b| - 1] == a + init && (a + b)[|a + b| - 1] == last;
      ConcatAppend(a, init);
      calc {
        Concat(a + b);
        Concat(a + init) + last;
        Concat(a) + Concat(init) + last;
        Concat(a) + (Concat(init) + last);
        { assert b[..|b| - 1] == init; }
        Concat(a) + Concat(b);
      }
    }
  }
}
