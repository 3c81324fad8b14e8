/** Sequence and text primitives the dashboard's JavaScript relies on:
    order-preserving `filter`, `indexOf`/`findIndex`, `String.prototype.trim`,
    `split`/`join` on one character, ASCII upper-casing and `parseInt`. */
module Common {

  datatype Option<+T> = None | Some(value: T)

  // ---------------------------------------------------------------------
  // Property lookup on object literals
  // ---------------------------------------------------------------------

  /** The names every object literal inherits from `Object.prototype`. Reading
      one that the literal does not define yields the inherited member, which
      is truthy. */
  const ObjectPrototypeNames: set<string> := {
    "constructor", "hasOwnProperty", "isPrototypeOf", "propertyIsEnumerable",
    "toLocaleString", "toString", "valueOf", "__proto__",
    "__defineGetter__", "__defineSetter__", "__lookupGetter__", "__lookupSetter__"}

  /** The value of `table[key] || fallback`: a text, or an inherited member. */
  datatype PropertyRead = OwnText(text: string) | InheritedMember(name: string)

  /** `table[key] || fallback` on a literal of string values: an own non-empty
      text is kept, an own empty text or a missing key falls back, and an
      inherited name yields its member. */
  function ReadOr(table: map<string, string>, key: string, fallback: string): PropertyRead
  {
    if key in table && table[key] != [] then OwnText(table[key])
    else if key !in table && key in ObjectPrototypeNames then InheritedMember(key)
    else OwnText(fallback)
  }

  // ---------------------------------------------------------------------
  // Sequences
  // ---------------------------------------------------------------------

  /** `r` is obtained from `s` by deleting zero or more elements, keeping order. */
  ghost predicate IsSubsequence<T>(r: seq<T>, s: seq<T>)
    decreases |s|
  {
    if r == [] then true
    else if s == [] then false
    else (r[0] == s[0] && IsSubsequence(r[1..], s[1..])) || IsSubsequence(r, s[1..])
  }

  /** `Array.prototype.filter`: the elements of `s` satisfying `p`, in order. */
  function Filter<T>(s: seq<T>, p: T -> bool): (r: seq<T>)
    ensures |r| <= |s|
    ensures forall i :: 0 <= i < |r| ==> p(r[i])
    ensures forall x :: x in r ==> x in s
    ensures forall x :: x in s && p(x) ==> x in r
    ensures IsSubsequence(r, s)
  {
    if s == [] then []
    else
      var rest := Filter(s[1..], p);
      assert forall x :: x in s && x != s[0] ==> x in s[1..];
      if p(s[0]) then [s[0]] + rest else rest
  }

  lemma {:induction false} FilterAppend<T>(a: seq<T>, b: seq<T>, p: T -> bool)
    ensures Filter(a + b, p) == Filter(a, p) + Filter(b, p)
    decreases |a|
  {
    if a == [] {
      assert a + b == b;
    } else {
      assert (a + b)[1..] == a[1..] + b;
      FilterAppend(a[1..], b, p);
    }
  }

  /** Filtering keeps every copy of an element that passes and no copy of
      one that fails. */
  lemma {:induction false} FilterMultiset<T>(s: seq<T>, p: T -> bool)
    ensures forall x :: multiset(Filter(s, p))[x] == if p(x) then multiset(s)[x] else 0
    decreases |s|
  {
    if s != [] {
      FilterMultiset(s[1..], p);
      assert s == [s[0]] + s[1..];
    }
  }

  /** Filtering keeps exactly the elements that pass: a list all of whose
      elements pass is returned whole, and filtering twice is filtering once. */
  lemma {:induction false} FilterKeepsAll<T>(s: seq<T>, p: T -> bool)
    requires forall i :: 0 <= i < |s| ==> p(s[i])
    ensures Filter(s, p) == s
    decreases |s|
  {
    if s != [] {
      FilterKeepsAll(s[1..], p);
    }
  }

  lemma FilterNone<T>(x: T, p: T -> bool)
    requires !p(x)
    ensures Filter([x], p) == []
  {
    assert [x][1..] == [];
  }

  /** An element that fails the test leaves no trace in the filtered result. */
  lemma {:induction false} FilterSkip<T>(a: seq<T>, x: T, b: seq<T>, p: T -> bool)
    requires !p(x)
    ensures Filter(a + [x] + b, p) == Filter(a, p) + Filter(b, p)
  {
    var ax := a + [x];
    FilterAppend(ax, b, p);
    FilterAppend(a, [x], p);
    FilterNone(x, p);
    assert Filter(ax, p) == Filter(a, p);
  }

  lemma FilterIdempotent<T>(s: seq<T>, p: T -> bool)
    ensures Filter(Filter(s, p), p) == Filter(s, p)
  {
    FilterKeepsAll(Filter(s, p), p);
  }

  /** `Array.prototype.findIndex`: the first index whose element satisfies `p`, or -1. */
  function FindIndex<T>(s: seq<T>, p: T -> bool): (k: int)
    ensures -1 <= k < |s|
    ensures k == -1 <==> forall i :: 0 <= i < |s| ==> !p(s[i])
    ensures k >= 0 ==> p(s[k]) && forall i :: 0 <= i < k ==> !p(s[i])
  {
    if s == [] then -1
    else if p(s[0]) then 0
    else
      var k := FindIndex(s[1..], p);
      assert forall i :: 1 <= i < |s| ==> s[i] == s[1..][i - 1];
      if k == -1 then -1 else k + 1
  }

  /** `Array.prototype.find`: the first element satisfying `p`, if any. */
  function Find<T>(s: seq<T>, p: T -> bool): (r: Option<T>)
    ensures r.None? <==> forall i :: 0 <= i < |s| ==> !p(s[i])
    ensures r.Some? ==> r.value in s && p(r.value)
    ensures r.Some? ==> r.value == s[FindIndex(s, p)]
  {
    var k := FindIndex(s, p);
    if k == -1 then None else Some(s[k])
  }

  /** `Array.prototype.indexOf`: the first index of `x` in `s`, or -1. */
  function IndexOf<T(==)>(s: seq<T>, x: T): (k: int)
    ensures -1 <= k < |s|
    ensures k == -1 <==> x !in s
    ensures k >= 0 ==> s[k] == x && forall j :: 0 <= j < k ==> s[j] != x
  {
    if s == [] then -1
    else if s[0] == x then 0
    else
      var k := IndexOf(s[1..], x);
      if k == -1 then -1 else k + 1
  }

  predicate NoDuplicates<T(==)>(s: seq<T>)
  {
    forall i, j :: 0 <= i < j < |s| ==> s[i] != s[j]
  }

  lemma NoDuplicatesCons<T>(y: T, s: seq<T>)
    requires y !in s && NoDuplicates(s)
    ensures NoDuplicates([y] + s)
  {
    var t := [y] + s;
    forall i, j | 0 <= i < j < |t| ensures t[i] != t[j]
    {
      assert t[j] == s[j - 1];
      if i > 0 {
        assert t[i] == s[i - 1];
      }
    }
  }

  /** Inserting a new element anywhere keeps a list duplicate-free. */
  lemma NoDuplicatesInsert<T>(s: seq<T>, k: int, y: T)
    requires 0 <= k <= |s| && y !in s && NoDuplicates(s)
    ensures NoDuplicates(s[..k] + [y] + s[k..])
  {
    var t := s[..k] + [y] + s[k..];
    forall i, j | 0 <= i < j < |t| ensures t[i] != t[j]
    {
      if i == k {
        assert t[j] == s[j - 1];
      } else if j == k {
        assert t[i] == s[i];
      } else {
        var i' := if i < k then i else i - 1;
        var j' := if j < k then j else j - 1;
        assert t[i] == s[i'] && t[j] == s[j'];
      }
    }
  }

  /** In a list without duplicates, `indexOf` finds each element at its own position. */
  /** Appending an element leaves the first index of everything already
      present unchanged, and a new element is found at the end. */
  lemma IndexOfAppend<T>(s: seq<T>, x: T, y: T)
    ensures y in s ==> IndexOf(s + [x], y) == IndexOf(s, y)
    ensures x !in s ==> IndexOf(s + [x], x) == |s|
  {
    var t := s + [x];
    assert forall j :: 0 <= j < |s| ==> t[j] == s[j];
  }

  /** `[...new Set(xs)]`: each value once, in the order of its first
      occurrence (see `DistinctSpec`). */
  function Distinct<T(==)>(xs: seq<T>): seq<T>
    decreases |xs|
  {
    if xs == [] then []
    else
      var d := Distinct(xs[..|xs| - 1]);
      var x := xs[|xs| - 1];
      if x in d then d else d + [x]
  }

  /** `Distinct` keeps every value of `xs` exactly once and lists the values
      by increasing index of first occurrence. */
  lemma {:induction false} DistinctSpec<T>(xs: seq<T>)
    ensures NoDuplicates(Distinct(xs))
    ensures forall i :: 0 <= i < |Distinct(xs)| ==> Distinct(xs)[i] in xs
    ensures forall i :: 0 <= i < |xs| ==> xs[i] in Distinct(xs)
    ensures forall i, j :: 0 <= i < j < |Distinct(xs)| ==>
              IndexOf(xs, Distinct(xs)[i]) < IndexOf(xs, Distinct(xs)[j])
    decreases |xs|
  {
    if xs != [] {
      var init := xs[..|xs| - 1];
      var x := xs[|xs| - 1];
      assert xs == init + [x];
      var d := Distinct(init);
      DistinctSpec(init);
      var r := Distinct(xs);
      forall i | 0 <= i < |d|
        ensures IndexOf(xs, d[i]) == IndexOf(init, d[i])
      {
        IndexOfAppend(init, x, d[i]);
      }
      if x !in d {
        assert r == d + [x];
        IndexOfAppend(init, x, x);
        forall i | 0 <= i < |d|
          ensures IndexOf(xs, d[i]) < IndexOf(xs, x)
        {
        }
      }
      forall i | 0 <= i < |xs|
        ensures xs[i] in r
      {
        if i < |init| {
          assert xs[i] == init[i];
        }
      }
    }
  }

  lemma IndexOfUnique<T>(s: seq<T>, i: int)
    requires NoDuplicates(s) && 0 <= i < |s|
    ensures IndexOf(s, s[i]) == i
  {
  }

  /** `Array.prototype.filter((_, i) => i !== index)`. */
  function RemoveAt<T>(s: seq<T>, index: int): (r: seq<T>)
    ensures 0 <= index < |s| ==> r == s[..index] + s[index + 1..]
    ensures !(0 <= index < |s|) ==> r == s
    decreases |s|
  {
    if s == [] then []
    else
      var rest := RemoveAt(s[1..], index - 1);
      assert 0 < index < |s| ==> s[..index] == [s[0]] + s[1..][..index - 1];
      if index == 0 then rest + [] else [s[0]] + rest
  }

  /** `Array.prototype.map((x, i) => i === index ? y : x)`. */
  function ReplaceAt<T>(s: seq<T>, index: int, y: T): (r: seq<T>)
    ensures |r| == |s|
    ensures forall i :: 0 <= i < |s| && i != index ==> r[i] == s[i]
    ensures 0 <= index < |s| ==> r[index] == y
  {
    seq(|s|, i requires 0 <= i < |s| => if i == index then y else s[i])
  }

  /** Replacing at an index is the in-place assignment `a[index] = y` when the
      index is in range, and changes nothing otherwise. */
  lemma ReplaceAtIsUpdate<T>(s: seq<T>, index: int, y: T)
    ensures 0 <= index < |s| ==> ReplaceAt(s, index, y) == s[index := y]
    ensures !(0 <= index < |s|) ==> ReplaceAt(s, index, y) == s
  {
  }

  // ---------------------------------------------------------------------
  // Text
  // ---------------------------------------------------------------------

  /** The characters `String.prototype.trim` strips and the regular-expression
      class `\s` matches (ECMAScript WhiteSpace and LineTerminator). */
  predicate IsWhitespace(c: char)
  {
    || c == ' ' || c == '\t' || c == '\n' || c == '\r'
    || c == '\U{000B}' || c == '\U{000C}' || c == '\U{00A0}' || c == '\U{1680}'
    || ('\U{2000}' <= c <= '\U{200A}')
    || c == '\U{2028}' || c == '\U{2029}' || c == '\U{202F}' || c == '\U{205F}'
    || c == '\U{3000}' || c == '\U{FEFF}'
  }

  predicate IsBlank(s: string)
  {
    forall i :: 0 <= i < |s| ==> IsWhitespace(s[i])
  }

  function TrimStart(s: string): (r: string)
    ensures |r| <= |s| && r == s[|s| - |r|..]
    ensures IsBlank(s[..|s| - |r|])
    ensures r != [] ==> !IsWhitespace(r[0])
    ensures r == [] <==> IsBlank(s)
  {
    if s != [] && IsWhitespace(s[0]) then
      var r := TrimStart(s[1..]);
      BlankFront(s, |s| - |r|);
      r
    else s
  }

  /** A blank text preceded by whitespace is blank, and a blank text stays
      blank without its first character. */
  lemma BlankFront(s: string, n: int)
    requires 1 <= n <= |s| && IsWhitespace(s[0])
    ensures IsBlank(s[1..][..n - 1]) ==> IsBlank(s[..n])
    ensures IsBlank(s) ==> IsBlank(s[1..])
  {
    if IsBlank(s[1..][..n - 1]) {
      forall i | 0 <= i < n
        ensures IsWhitespace(s[..n][i])
      {
        if i > 0 {
          assert s[..n][i] == s[1..][..n - 1][i - 1];
        }
      }
    }
    if IsBlank(s) {
      forall i | 0 <= i < |s| - 1
        ensures IsWhitespace(s[1..][i])
      {
        assert s[1..][i] == s[i + 1];
      }
    }
  }

  function TrimEnd(s: string): (r: string)
    ensures |r| <= |s| && r == s[..|r|]
    ensures IsBlank(s[|r|..])
    ensures r != [] ==> !IsWhitespace(r[|r| - 1])
    ensures r == [] <==> IsBlank(s)
  {
    if s != [] && IsWhitespace(s[|s| - 1]) then
      var r := TrimEnd(s[..|s| - 1]);
      BlankBack(s, |r|);
      r
    else s
  }

  /** A blank text followed by whitespace is blank, and a blank text stays
      blank without its last character. */
  lemma BlankBack(s: string, n: int)
    requires 0 <= n < |s| && IsWhitespace(s[|s| - 1])
    ensures IsBlank(s[..|s| - 1][n..]) ==> IsBlank(s[n..])
    ensures IsBlank(s) ==> IsBlank(s[..|s| - 1])
  {
    if IsBlank(s[..|s| - 1][n..]) {
      forall i | 0 <= i < |s| - n
        ensures IsWhitespace(s[n..][i])
      {
        if i < |s| - 1 - n {
          assert s[n..][i] == s[..|s| - 1][n..][i];
        }
      }
    }
    if IsBlank(s) {
      var init := s[..|s| - 1];
      forall i | 0 <= i < |init|
        ensures IsWhitespace(init[i])
      {
        assert init[i] == s[i];
      }
    }
  }

  /** `String.prototype.trim`: `s` without its leading and trailing whitespace. */
  function Trim(s: string): (r: string)
    ensures r == [] <==> IsBlank(s)
    ensures r != [] ==> !IsWhitespace(r[0]) && !IsWhitespace(r[|r| - 1])
    ensures exists k :: MiddleOf(s, r, k)
  {
    var t := TrimStart(s);
    var r := TrimEnd(t);
    TrimWitness(s, t, r);
    r
  }

  /** `r` sits at offset `k` of `s` with only whitespace before and after it. */
  predicate MiddleOf(s: string, r: string, k: int)
  {
    0 <= k && k + |r| <= |s| && r == s[k..k + |r|] && IsBlank(s[..k]) && IsBlank(s[k + |r|..])
  }

  /** Trimming the front and then the back leaves a middle slice of `s`
      with blank text on either side. */
  lemma TrimWitness(s: string, t: string, r: string)
    requires |t| <= |s| && t == s[|s| - |t|..] && IsBlank(s[..|s| - |t|])
    requires |r| <= |t| && r == t[..|r|] && IsBlank(t[|r|..])
    requires r == [] <==> IsBlank(t)
    requires t == [] <==> IsBlank(s)
    requires t != [] ==> !IsWhitespace(t[0])
    requires r != [] ==> !IsWhitespace(r[|r| - 1])
    ensures r == [] <==> IsBlank(s)
    ensures r != [] ==> !IsWhitespace(r[0]) && !IsWhitespace(r[|r| - 1])
    ensures MiddleOf(s, r, |s| - |t|)
  {
    var k := |s| - |t|;
    assert s[k..k + |r|] == t[..|r|];
    assert s[k + |r|..] == t[|r|..];
    assert r != [] ==> r[0] == t[0];
  }

  /** The tag and requirement filter `x.trim() !== ""`. */
  predicate NotBlank(s: string)
  {
    Trim(s) != []
  }

  /** The list editors' save step: drop entries that are empty after trimming. */
  function FilterNonBlank(items: seq<string>): (r: seq<string>)
    ensures IsSubsequence(r, items)
    ensures forall i :: 0 <= i < |r| ==> !IsBlank(r[i])
    ensures forall x :: x in items && !IsBlank(x) ==> x in r
    ensures forall x :: x in items && IsBlank(x) ==> x !in r
    ensures forall x :: multiset(r)[x] == if IsBlank(x) then 0 else multiset(items)[x]
  {
    FilterMultiset(items, NotBlank);
    Filter(items, NotBlank)
  }

  /** The filter leaves nothing exactly when every entry is blank. */
  lemma FilterNonBlankEmpty(items: seq<string>)
    ensures FilterNonBlank(items) == [] <==> forall i :: 0 <= i < |items| ==> IsBlank(items[i])
  {
    var r := FilterNonBlank(items);
    if r != [] {
      assert r[0] in Filter(items, NotBlank);
      assert r[0] in items && !IsBlank(r[0]);
    }
    if exists i :: 0 <= i < |items| && !IsBlank(items[i]) {
      var i :| 0 <= i < |items| && !IsBlank(items[i]);
      assert items[i] in r;
    }
  }

  /** `String.prototype.split(sep)` with a one-character separator. */
  function Split(s: string, sep: char): (pieces: seq<string>)
    ensures |pieces| >= 1
    ensures forall i :: 0 <= i < |pieces| ==> sep !in pieces[i]
    ensures forall i, j :: 0 <= i < |pieces| && 0 <= j < |pieces[i]| ==> pieces[i][j] in s
  {
    if s == [] then [[]]
    else
      var rest := Split(s[1..], sep);
      if s[0] == sep then [[]] + rest
      else [[s[0]] + rest[0]] + rest[1..]
  }

  /** `Array.prototype.join(sep)` with a one-character separator. */
  function Join(pieces: seq<string>, sep: char): string
  {
    if pieces == [] then []
    else if |pieces| == 1 then pieces[0]
    else pieces[0] + [sep] + Join(pieces[1..], sep)
  }

  /** A string without the separator splits into itself. */
  lemma {:induction false} SplitWithoutSeparator(s: string, sep: char)
    requires sep !in s
    ensures Split(s, sep) == [s]
    decreases |s|
  {
    if s != [] {
      SplitWithoutSeparator(s[1..], sep);
      assert s == [s[0]] + s[1..];
    }
  }

  /** A piece followed by the separator splits off as the first piece. */
  lemma {:induction false} SplitWord(w: string, u: string, sep: char)
    requires sep !in w
    ensures Split(w + [sep] + u, sep) == [w] + Split(u, sep)
    decreases |w|
  {
    var s := w + [sep] + u;
    if w == [] {
      assert s[1..] == u;
    } else {
      assert s[1..] == w[1..] + [sep] + u;
      SplitWord(w[1..], u, sep);
      assert [w[0]] + w[1..] == w;
    }
  }

  /** The first piece of a split is the text up to the first separator. */
  lemma {:induction false} SplitHead(s: string, sep: char)
    ensures Split(s, sep)[0] <= s
    ensures |Split(s, sep)[0]| < |s| ==> s[|Split(s, sep)[0]|] == sep
    decreases |s|
  {
    if s != [] && s[0] != sep {
      SplitHead(s[1..], sep);
    }
  }

  /** `timestamp.split('T')[0]`: the date part of an ISO timestamp, the text
      before the first `T` (all of it when there is none). */
  function DatePart(timestamp: string): (date: string)
    ensures date <= timestamp && 'T' !in date
    ensures date == timestamp || timestamp[|date|] == 'T'
  {
    SplitHead(timestamp, 'T');
    Split(timestamp, 'T')[0]
  }

  /** Overwriting one slot of a copy, as `const copy = [...xs]; copy[index] =
      value` does: the copy is made in an array and one cell is assigned. */
  method SetSlot<T>(xs: seq<T>, index: int, value: T) returns (r: seq<T>)
    requires 0 <= index < |xs|
    ensures |r| == |xs| && r[index] == value
    ensures forall i :: 0 <= i < |xs| && i != index ==> r[i] == xs[i]
  {
    var copy := new T[|xs|](i requires 0 <= i < |xs| => xs[i]);
    copy[index] := value;
    r := copy[..];
  }

  /** Joining the pieces of a split with the same separator gives back the string. */
  lemma {:induction false} JoinSplit(s: string, sep: char)
    ensures Join(Split(s, sep), sep) == s
    decreases |s|
  {
    if s != [] {
      var rest := Split(s[1..], sep);
      JoinSplit(s[1..], sep);
      if s[0] == sep {
        assert Split(s, sep) == [[]] + rest;
        assert ([[]] + rest)[1..] == rest;
      } else {
        JoinHead([s[0]], rest, sep);
        assert s == [s[0]] + s[1..];
      }
    }
  }

  /** Prefixing the first piece prefixes the joined string. */
  lemma JoinHead(a: string, pieces: seq<string>, sep: char)
    requires |pieces| >= 1
    ensures Join([a + pieces[0]] + pieces[1..], sep) == a + Join(pieces, sep)
  {
    var ps := [a + pieces[0]] + pieces[1..];
    assert ps[1..] == pieces[1..];
  }

  /** `toUpperCase` on one character, for the ASCII letters. */
  function Upper(c: char): char
  {
    if 'a' <= c <= 'z' then (c as int - 32) as char else c
  }

  function UpperString(s: string): (r: string)
    ensures |r| == |s| && forall i :: 0 <= i < |s| ==> r[i] == Upper(s[i])
  {
    seq(|s|, i requires 0 <= i < |s| => Upper(s[i]))
  }

  /** `String.prototype.slice(0, n)`. */
  function Prefix(s: string, n: nat): (r: string)
    ensures |r| == if n <= |s| then n else |s|
    ensures r <= s
  {
    if n <= |s| then s[..n] else s
  }

  // ---------------------------------------------------------------------
  // parseInt
  // ---------------------------------------------------------------------

  predicate IsDigit(c: char) { '0' <= c <= '9' }

  predicate IsHexDigit(c: char)
  {
    IsDigit(c) || 'a' <= c <= 'f' || 'A' <= c <= 'F'
  }

  function DigitValue(c: char): nat
  {
    if IsDigit(c) then c as int - '0' as int
    else if 'a' <= c <= 'f' then c as int - 'a' as int + 10
    else if 'A' <= c <= 'F' then c as int - 'A' as int + 10
    else 0
  }

  /** The longest prefix of `s` whose characters satisfy `ok`. */
  function DigitPrefix(s: string, hex: bool): (r: string)
    ensures r <= s
  {
    if s != [] && (if hex then IsHexDigit(s[0]) else IsDigit(s[0]))
    then [s[0]] + DigitPrefix(s[1..], hex)
    else []
  }

  /** The value of a digit string in the given base, most significant digit first. */
  function DigitsValue(s: string, base: nat): nat
  {
    if s == [] then 0 else DigitsValue(s[..|s| - 1], base) * base + DigitValue(s[|s| - 1])
  }

  /** The global `parseInt(s)` without a radix argument: leading whitespace is
      skipped, an optional sign is read, a `0x`/`0X` prefix selects base 16,
      and the longest run of digits that follows is converted. `None` is `NaN`. */
  function ParseInt(s: string): Option<int>
  {
    var t := TrimStart(s);
    if t != [] && t[0] == '-' then
      match ParseUnsigned(t[1..])
      case None => None
      case Some(v) => Some(0 - v as int)
    else if t != [] && t[0] == '+' then ParseUnsigned(t[1..])
    else ParseUnsigned(t)
  }

  /** The digits after the sign: hexadecimal behind `0x`/`0X`, decimal otherwise. */
  function ParseUnsigned(body: string): Option<nat>
  {
    if |body| >= 2 && body[0] == '0' && (body[1] == 'x' || body[1] == 'X') then
      var digits := DigitPrefix(body[2..], true);
      if digits == [] then None else Some(DigitsValue(digits, 16))
    else
      var digits := DigitPrefix(body, false);
      if digits == [] then None else Some(DigitsValue(digits, 10))
  }

  /** The decimal numeral of `n`, as `String(n)` writes it. */
  function NatToDecimal(n: nat): (r: string)
    ensures |r| >= 1
    ensures forall i :: 0 <= i < |r| ==> IsDigit(r[i])
  {
    if n < 10 then [('0' as int + n) as char]
    else NatToDecimal(n / 10) + [('0' as int + n % 10) as char]
  }

  lemma {:induction false} DecimalValueOfNumeral(n: nat)
    ensures DigitsValue(NatToDecimal(n), 10) == n
  {
    if n >= 10 {
      var s := NatToDecimal(n);
      assert s[..|s| - 1] == NatToDecimal(n / 10);
      DecimalValueOfNumeral(n / 10);
    }
  }

  lemma {:induction false} DigitPrefixOfDigits(s: string)
    requires forall i :: 0 <= i < |s| ==> IsDigit(s[i])
    ensures DigitPrefix(s, false) == s
    decreases |s|
  {
    if s != [] {
      DigitPrefixOfDigits(s[1..]);
    }
  }

  lemma ParseUnsignedOfNumeral(n: nat)
    ensures ParseUnsigned(NatToDecimal(n)) == Some(n)
  {
    var d := NatToDecimal(n);
    DecimalValueOfNumeral(n);
    DigitPrefixOfDigits(d);
    assert |d| >= 2 ==> IsDigit(d[1]);
  }

  /** `parseInt` reads back what `String(n)` writes, for either sign. */
  lemma ParseIntRoundTrip(n: int)
    ensures n >= 0 ==> ParseInt(NatToDecimal(n)) == Some(n)
    ensures n < 0 ==> ParseInt("-" + NatToDecimal(-n)) == Some(n)
  {
    if n >= 0 {
      var d := NatToDecimal(n);
      assert IsDigit(d[0]);
      assert TrimStart(d) == d;
      ParseUnsignedOfNumeral(n);
    } else {
      var d := NatToDecimal(-n);
      var t := "-" + d;
      assert TrimStart(t) == t;
      assert t[1..] == d;
      ParseUnsignedOfNumeral(-n);
    }
  }

  /** A blank input (the empty text field included) parses to `NaN`. */
  lemma ParseIntOfBlank(s: string)
    requires IsBlank(s)
    ensures ParseInt(s) == None
  {
  }
}
