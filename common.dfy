/** Values and string operations shared by every part of the agent model:
    optional values and results, a JSON value, integer rendering, joining and
    splitting on a separator, substring search, and the ASCII parts of
    Python's str.strip and str.lower. */
module Common {

  datatype Option<+T> = None | Some(value: T)

  datatype Result<+T, +E> = Ok(value: T) | Err(error: E)

  /** A decoded JSON value, as produced by the (abstract) argument parser. */
  datatype Json =
    | JNull
    | JBool(b: bool)
    | JNum(n: int)
    | JStr(s: string)
    | JArray(items: seq<Json>)
    | JObject(fields: seq<(string, Json)>)

  /** Python truthiness of an optional string: None and "" are false. */
  predicate Truthy(s: Option<string>) {
    s.Some? && s.value != ""
  }

  /** Python's f-string rendering of an optional string: None prints as "None". */
  function Display(s: Option<string>): string {
    if s.Some? then s.value else "None"
  }

  /** Python's `s[:n]`. */
  function Prefix(s: string, n: nat): (r: string)
    ensures |r| == if |s| <= n then |s| else n
    ensures r <= s
  {
    if |s| <= n then s else s[..n]
  }

  // ---------------------------------------------------------------------------
  // Integers as decimal text (Python's str(int))

  function DigitChar(d: nat): (c: char)
    requires d < 10
    ensures '0' <= c <= '9'
  {
    "0123456789"[d]
  }

  function NatToString(n: nat): (r: string)
    ensures |r| > 0
    ensures forall i :: 0 <= i < |r| ==> '0' <= r[i] <= '9'
    decreases n
  {
    if n < 10 then [DigitChar(n)] else NatToString(n / 10) + [DigitChar(n % 10)]
  }

  function IntToString(i: int): (r: string)
    ensures |r| > 0
    ensures (r[0] == '-') <==> i < 0
  {
    if i < 0 then "-" + NatToString(-i) else NatToString(i)
  }

  /** Reads back a string of decimal digits; the partner of NatToString. */
  function DigitsValue(s: string): nat
    requires forall i :: 0 <= i < |s| ==> '0' <= s[i] <= '9'
  {
    if |s| == 0 then 0 else 10 * DigitsValue(s[..|s| - 1]) + (s[|s| - 1] as int - '0' as int)
  }

  /** Rendering a natural number as decimal text loses nothing. */
  lemma {:induction false} NatToStringRoundTrip(n: nat)
    ensures DigitsValue(NatToString(n)) == n
    decreases n
  {
    if n >= 10 {
      var s := NatToString(n);
      assert s[..|s| - 1] == NatToString(n / 10);
      NatToStringRoundTrip(n / 10);
    }
  }

  /** Different numbers render differently. */
  lemma NatToStringInjective(m: nat, n: nat)
    ensures NatToString(m) == NatToString(n) ==> m == n
  {
    NatToStringRoundTrip(m);
    NatToStringRoundTrip(n);
  }

  // ---------------------------------------------------------------------------
  // Joining and splitting (Python's sep.join(parts) and s.split(sep))

  function Join(parts: seq<string>, sep: string): (r: string)
    ensures |parts| == 0 ==> r == ""
    ensures |parts| == 1 ==> r == parts[0]
  {
    if |parts| == 0 then ""
    else if |parts| == 1 then parts[0]
    else parts[0] + sep + Join(parts[1..], sep)
  }

  /** A join starts with its first part. */
  lemma JoinStartsWithFirst(parts: seq<string>, sep: string)
    requires |parts| > 0
    ensures parts[0] <= Join(parts, sep)
  {
    if |parts| > 1 {
      assert Join(parts, sep) == parts[0] + (sep + Join(parts[1..], sep));
    }
  }

  /** Every part occurs in the join. */
  lemma {:induction false} JoinContainsPart(parts: seq<string>, sep: string, k: nat)
    requires k < |parts|
    ensures Contains(Join(parts, sep), parts[k])
    decreases |parts|
  {
    if k == 0 {
      JoinStartsWithFirst(parts, sep);
      ContainsAt(Join(parts, sep), parts[0], 0);
    } else {
      JoinContainsPart(parts[1..], sep, k - 1);
      ContainsPrepend(parts[0] + sep, Join(parts[1..], sep), parts[k]);
    }
  }

  /** Every part occurs in the join. */
  lemma JoinShowsAll(parts: seq<string>, sep: string)
    ensures forall k :: 0 <= k < |parts| ==> Contains(Join(parts, sep), parts[k])
  {
    forall k | 0 <= k < |parts|
      ensures Contains(Join(parts, sep), parts[k])
    {
      JoinContainsPart(parts, sep, k);
    }
  }

  /** Joining the first n parts and a closing line shows each of them and the closing line. */
  lemma JoinShowsFirst(parts: seq<string>, n: nat, last: string, sep: string)
    requires n <= |parts|
    ensures Contains(Join(parts[..n] + [last], sep), last)
    ensures forall k :: 0 <= k < n ==> Contains(Join(parts[..n] + [last], sep), parts[k])
  {
    var shown := parts[..n] + [last];
    JoinShowsAll(shown, sep);
    assert shown[n] == last;
    assert forall k :: 0 <= k < n ==> shown[k] == parts[k];
  }

  /** The in-order concatenation of all chunks (Python's repeated `+=`). */
  function Concat(chunks: seq<string>): string {
    if |chunks| == 0 then "" else Concat(chunks[..|chunks| - 1]) + chunks[|chunks| - 1]
  }

  /** Concatenation is in order: the text of a + b is the text of a, then that of b. */
  lemma {:induction false} ConcatAppend(a: seq<string>, b: seq<string>)
    ensures Concat(a + b) == Concat(a) + Concat(b)
    decreases |b|
  {
    if |b| == 0 {
      assert a + b == a;
    } else {
      var b' := b[..|b| - 1];
      assert (a + b)[..|a + b| - 1] == a + b';
      ConcatAppend(a, b');
      AppendAssoc(Concat(a), Concat(b'), b[|b| - 1]);
    }
  }

  /** Each chunk sits in the concatenation between the chunks before it and those after it. */
  lemma ConcatAround(chunks: seq<string>, k: nat)
    requires k < |chunks|
    ensures Concat(chunks) == Concat(chunks[..k]) + chunks[k] + Concat(chunks[k + 1..])
  {
    var upto := chunks[..k + 1];
    var post := chunks[k + 1..];
    assert chunks == upto + post;
    ConcatAppend(upto, post);
    assert upto[..k] == chunks[..k];
    assert Concat(upto) == Concat(chunks[..k]) + chunks[k];
  }

  /** The concatenation is empty exactly when every chunk is. */
  lemma {:induction false} ConcatEmpty(chunks: seq<string>)
    ensures Concat(chunks) == "" <==> forall i :: 0 <= i < |chunks| ==> chunks[i] == ""
    decreases |chunks|
  {
    if |chunks| > 0 {
      var init := chunks[..|chunks| - 1];
      ConcatEmpty(init);
      assert forall i :: 0 <= i < |init| ==> init[i] == chunks[i];
    }
  }

  function IndexOf(s: string, c: char): (i: nat)
    requires c in s
    ensures i < |s| && s[i] == c && c !in s[..i]
  {
    if s[0] == c then 0 else 1 + IndexOf(s[1..], c)
  }

  /** Python's `s.split(sep)` for a one-character separator. */
  function Split(s: string, sep: char): (r: seq<string>)
    ensures |r| > 0
    decreases |s|
  {
    if sep !in s then [s]
    else
      var i := IndexOf(s, sep);
      [s[..i]] + Split(s[i + 1..], sep)
  }

  /** Splitting a joined list gives the list back when no part holds the separator. */
  lemma {:induction false} SplitJoin(parts: seq<string>, sep: char)
    requires |parts| > 0
    requires forall k :: 0 <= k < |parts| ==> sep !in parts[k]
    ensures Split(Join(parts, [sep]), sep) == parts
    decreases |parts|
  {
    if |parts| > 1 {
      var rest := Join(parts[1..], [sep]);
      var s := parts[0] + [sep] + rest;
      assert Join(parts, [sep]) == s;
      assert s[|parts[0]|] == sep;
      var i := IndexOf(s, sep);
      if i != |parts[0]| {
        assert false;
      }
      assert s[..i] == parts[0];
      assert s[i + 1..] == rest;
      SplitJoin(parts[1..], sep);
    }
  }

  // ---------------------------------------------------------------------------
  // Substrings (Python's `p in s` and `s.startswith(p)`)

  /** Python's `p in s` on strings. */
  predicate Contains(s: string, p: string)
    decreases |s|
  {
    p <= s || (|s| > 0 && Contains(s[1..], p))
  }

  /** A string contains every string that occurs at some offset of it. */
  lemma {:induction false} ContainsAt(s: string, p: string, k: nat)
    requires k <= |s| && p <= s[k..]
    ensures Contains(s, p)
    decreases k
  {
    if k > 0 {
      assert s[1..][k - 1..] == s[k..];
      ContainsAt(s[1..], p, k - 1);
    }
  }

  /** The left and right operands of a concatenation are both contained in it. */
  /** A pattern longer than the text does not occur in it. */
  lemma {:induction false} LongerNotContained(s: string, p: string)
    requires |s| < |p|
    ensures !Contains(s, p)
    decreases |s|
  {
    if |s| > 0 {
      LongerNotContained(s[1..], p);
    }
  }

  lemma ContainsParts(a: string, b: string, c: string)
    ensures Contains(a + b + c, b)
  {
    assert (a + b + c)[|a|..] == b + c;
    ContainsAt(a + b + c, b, |a|);
  }

  /** Putting text in front keeps every contained string contained. */
  lemma {:induction false} ContainsPrepend(a: string, b: string, p: string)
    requires Contains(b, p)
    ensures Contains(a + b, p)
    decreases |a|
  {
    if |a| > 0 {
      assert (a + b)[1..] == a[1..] + b;
      ContainsPrepend(a[1..], b, p);
    } else {
      assert a + b == b;
    }
  }

  /** A part of a text placed after a header is still contained in the whole. */
  lemma ContainsAfterHeader(h: string, a: string, b: string, c: string)
    ensures h <= h + (a + b + c)
    ensures Contains(h + (a + b + c), b)
  {
    assert h + (a + b + c) == (h + a) + b + c;
    ContainsParts(h + a, b, c);
  }

  // ---------------------------------------------------------------------------
  // ASCII restrictions of Python's str.strip() and str.lower()

  /** The ASCII characters Python's str.isspace accepts. */
  predicate IsSpace(c: char) {
    c == ' ' || (9 <= c as int <= 13) || (28 <= c as int <= 31)
  }

  function TrimStart(s: string): (r: string)
    ensures |r| <= |s|
    ensures r == s[|s| - |r|..]
    ensures |r| > 0 ==> !IsSpace(r[0])
    ensures forall i :: 0 <= i < |s| - |r| ==> IsSpace(s[i])
  {
    if |s| > 0 && IsSpace(s[0]) then
      var r := TrimStart(s[1..]);
      assert forall i :: 1 <= i < |s| ==> s[i] == s[1..][i - 1];
      r
    else s
  }

  function TrimEnd(s: string): (r: string)
    ensures |r| <= |s|
    ensures r == s[..|r|]
    ensures |r| > 0 ==> !IsSpace(r[|r| - 1])
    ensures forall i :: |r| <= i < |s| ==> IsSpace(s[i])
  {
    if |s| > 0 && IsSpace(s[|s| - 1]) then
      var r := TrimEnd(s[..|s| - 1]);
      assert forall i :: 0 <= i < |s| - 1 ==> s[i] == s[..|s| - 1][i];
      r
    else s
  }

  /** Python's `s.strip()`: the text is whitespace, r, and whitespace, and
      no whitespace is left at either end of r. */
  function Strip(s: string): (r: string)
    ensures |r| <= |s|
    ensures |r| > 0 ==> !IsSpace(r[0]) && !IsSpace(r[|r| - 1])
    ensures exists i: nat :: SpaceAround(s, r, i)
  {
    StripAround(s);
    TrimEnd(TrimStart(s))
  }

  lemma StripAround(s: string)
    ensures SpaceAround(s, TrimEnd(TrimStart(s)), |s| - |TrimStart(s)|)
  {
    var t := TrimStart(s);
    SpaceAroundSuffix(s, t, TrimEnd(t), |s| - |t|);
  }

  /** Whitespace before index i of s, then t = s[i..], which is r and whitespace. */
  lemma SpaceAroundSuffix(s: string, t: string, r: string, i: nat)
    requires i <= |s| && t == s[i..] && |r| <= |t| && r == t[..|r|]
    requires forall k :: 0 <= k < i ==> IsSpace(s[k])
    requires forall k :: |r| <= k < |t| ==> IsSpace(t[k])
    ensures SpaceAround(s, r, i)
  {
  }

  /** s is whitespace, then r from index i, then whitespace. */
  predicate SpaceAround(s: string, r: string, i: nat) {
    i + |r| <= |s| && r == s[i..i + |r|] &&
    (forall k :: 0 <= k < i ==> IsSpace(s[k])) &&
    (forall k :: i + |r| <= k < |s| ==> IsSpace(s[k]))
  }

  function LowerChar(c: char): char {
    if 'A' <= c <= 'Z' then (c as int + 32) as char else c
  }

  /** Python's `s.lower()` on ASCII letters. */
  function Lower(s: string): (r: string)
    ensures |r| == |s|
  {
    if |s| == 0 then [] else [LowerChar(s[0])] + Lower(s[1..])
  }

  /** Lower-casing works character by character. */
  lemma {:induction false} LowerAt(s: string, i: nat)
    requires i < |s|
    ensures Lower(s)[i] == LowerChar(s[i])
  {
    if i > 0 {
      LowerAt(s[1..], i - 1);
    }
  }

  /** Lower-casing twice is lower-casing once. */
  lemma {:induction false} LowerTwice(s: string)
    ensures Lower(Lower(s)) == Lower(s)
  {
    if |s| > 0 {
      LowerTwice(s[1..]);
      assert Lower(s)[1..] == Lower(s[1..]);
    }
  }

  // ---------------------------------------------------------------------------
  // Sequence bookkeeping

  lemma AppendAssoc<T>(a: seq<T>, b: seq<T>, c: seq<T>)
    ensures a + (b + c) == (a + b) + c
  {
  }

  lemma PrefixTransitive<T>(a: seq<T>, b: seq<T>, c: seq<T>)
    requires a <= b && b <= c
    ensures a <= c
  {
    assert c[..|a|] == b[..|a|];
  }

  lemma AppendEmpty<T>(a: seq<T>)
    ensures [] + a == a && a + [] == a
  {
  }
}
