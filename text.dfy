/**
 * String helpers of the documentation tree: repetition, indentation, the
 * name-link heuristic, newline stripping, upper-casing of HTTP verbs,
 * integer formatting and the byte length Go's `len` reports.
 */
module Text {

  // ---------------------------------------------------------------------
  // Repetition and indentation
  // ---------------------------------------------------------------------

  /** `count` copies of `s` one after the other; nothing when `count <= 0`. */
  function Repeat(s: string, count: int): string
    decreases count
  {
    if count <= 0 then "" else Repeat(s, count - 1) + s
  }

  /** The number of copies `Repeat` makes: `count`, or none when it is not positive. */
  function Copies(count: int): nat
  {
    if count > 0 then count else 0
  }

  lemma {:induction false} RepeatLength(s: string, count: int)
    ensures |Repeat(s, count)| == |s| * Copies(count)
    decreases count
  {
    if count > 0 {
      RepeatLength(s, count - 1);
      assert |Repeat(s, count)| == |s| * Copies(count - 1) + |s|;
    }
  }

  /** `a + b` copies are `a` copies followed by `b` copies. */
  lemma {:induction false} RepeatAdd(s: string, a: nat, b: nat)
    ensures Repeat(s, a + b) == Repeat(s, a) + Repeat(s, b)
    decreases b
  {
    if b > 0 {
      RepeatAdd(s, a, b - 1);
      assert Repeat(s, a + b) == Repeat(s, a + b - 1) + s;
    }
  }

  /** Repeating a single character gives exactly `count` copies of it and nothing else. */
  lemma {:induction false} RepeatChar(c: char, count: int)
    ensures |Repeat([c], count)| == Copies(count)
    ensures forall k | 0 <= k < |Repeat([c], count)| :: Repeat([c], count)[k] == c
    decreases count
  {
    if count > 0 {
      RepeatChar(c, count - 1);
    }
  }

  /** strRepeat: the loop that appends `s` to an accumulator `count` times. */
  method StrRepeat(s: string, count: int) returns (rv: string)
    ensures rv == Repeat(s, count)
  {
    rv := "";
    var n := count;
    while n > 0
      invariant if count > 0 then 0 <= n <= count else n == count
      invariant rv == Repeat(s, Copies(count) - Copies(n))
      decreases n
    {
      rv := rv + s;
      n := n - 1;
    }
  }

  /** The text prindent produces: four spaces per level of `depth`, then `text`. */
  function Indented(depth: int, text: string): string
  {
    Repeat("    ", depth) + text
  }

  lemma IndentedShape(depth: int, text: string)
    ensures |Indented(depth, text)| == 4 * Copies(depth) + |text|
    ensures forall k | 0 <= k < 4 * Copies(depth) :: Indented(depth, text)[k] == ' '
    ensures Indented(depth, text)[4 * Copies(depth)..] == text
  {
    RepeatLength("    ", depth);
    RepeatSpaces(depth);
  }

  lemma {:induction false} RepeatSpaces(count: int)
    ensures |Repeat("    ", count)| == 4 * Copies(count)
    ensures forall k | 0 <= k < |Repeat("    ", count)| :: Repeat("    ", count)[k] == ' '
    decreases count
  {
    if count > 0 {
      RepeatSpaces(count - 1);
      var r := Repeat("    ", count);
      assert r == Repeat("    ", count - 1) + "    ";
      forall k | 0 <= k < |r| ensures r[k] == ' ' {
        if k < |Repeat("    ", count - 1)| {
          assert r[k] == Repeat("    ", count - 1)[k];
        } else {
          assert r[k] == "    "[k - |Repeat("    ", count - 1)|];
        }
      }
    }
  }

  /** One more level of depth puts one more four-space step in front. */
  lemma IndentedNests(depth: nat, text: string)
    ensures Indented(depth + 1, text) == "    " + Indented(depth, text)
  {
    RepeatAdd("    ", 1, depth);
    assert Repeat("    ", 1) == "    ";
  }

  /** prindent: the loop that appends four spaces per level, then the formatted text. */
  method Prindent(depth: int, text: string) returns (s: string)
    ensures s == Indented(depth, text)
  {
    s := "";
    var i := 0;
    while i < depth
      invariant 0 <= i <= Copies(depth)
      invariant s == Repeat("    ", i)
      decreases depth - i
    {
      s := s + "    ";
      i := i + 1;
    }
    s := s + text;
  }

  // ---------------------------------------------------------------------
  // The name-link heuristic
  // ---------------------------------------------------------------------

  /**
   * What follows the final '.' of `s` (the last element of a split on "."),
   * or all of `s` when it has no '.'.
   */
  function LastSegment(s: string): (r: string)
    ensures |r| <= |s| && s[|s| - |r|..] == r
    ensures '.' !in r
    ensures |r| < |s| ==> s[|s| - |r| - 1] == '.'
  {
    if s == [] then ""
    else if s[|s| - 1] == '.' then ""
    else LastSegment(s[..|s| - 1]) + [s[|s| - 1]]
  }

  /** A Markdown link whose text and anchor are both `name`. */
  function Link(name: string): string
  {
    "[" + name + "](#" + name + ")"
  }

  /**
   * nameLink: a dotted (qualified) type name becomes a link to the anchor of
   * its last segment; a name without a '.' (a scalar type) is left alone.
   */
  function NameLink(s: string): (r: string)
    ensures '.' !in r
    ensures '\n' in r ==> '\n' in s
    ensures '|' in r ==> '|' in s
  {
    if '.' !in s then s else Link(LastSegment(s))
  }

  /** A name with no '.' is returned unchanged. */
  lemma NameLinkBare(s: string)
    requires '.' !in s
    ensures NameLink(s) == s
  {
  }

  /** A qualified name `pkg.Name` links to the anchor `Name`. */
  lemma NameLinkQualified(pkg: string, name: string)
    requires '.' !in name
    ensures NameLink(pkg + "." + name) == Link(name)
  {
    var s := pkg + "." + name;
    assert s[|pkg|] == '.';
    LastSegmentOfQualified(pkg, name);
  }

  lemma LastSegmentOfQualified(pkg: string, name: string)
    requires '.' !in name
    ensures LastSegment(pkg + "." + name) == name
  {
    var s := pkg + "." + name;
    assert s[|pkg|] == '.';
    assert s[|s| - |name|..] == name;
  }

  /** Applying the heuristic to its own output changes nothing. */
  lemma NameLinkIdempotent(s: string)
    ensures NameLink(NameLink(s)) == NameLink(s)
  {
  }

  /** A user-defined message type is linked to its anchor. */
  lemma NameLinkExampleQualified()
    ensures NameLink("pkg.Foo") == "[Foo](#Foo)"
  {
    assert "pkg" + "." + "Foo" == "pkg.Foo";
    NameLinkQualified("pkg", "Foo");
  }

  /** A scalar type name stays bare. */
  lemma NameLinkExampleScalar()
    ensures NameLink("int32") == "int32"
  {
    assert '.' !in "int32";
  }

  /** A trailing '.' links to the empty anchor, as splitting on "." gives an empty last element. */
  lemma NameLinkTrailingDot(pkg: string)
    ensures NameLink(pkg + ".") == "[](#)"
  {
    assert pkg + "." == pkg + "." + "";
    NameLinkQualified(pkg, "");
  }

  // ---------------------------------------------------------------------
  // Newline stripping (strings.Replace(s, "\n", "", -1))
  // ---------------------------------------------------------------------

  /** `s` with every '\n' removed, the other characters kept in order. */
  function StripNewlines(s: string): (r: string)
    ensures '\n' !in r
    ensures |r| <= |s|
    ensures '\n' !in s ==> r == s
    ensures forall c :: c in r ==> c in s
  {
    if s == [] then ""
    else StripNewlines(s[..|s| - 1]) + (if s[|s| - 1] == '\n' then "" else [s[|s| - 1]])
  }

  /** Stripping works piece by piece. */
  lemma {:induction false} StripNewlinesAppend(a: string, b: string)
    ensures StripNewlines(a + b) == StripNewlines(a) + StripNewlines(b)
    decreases |b|
  {
    if b != [] {
      var b' := b[..|b| - 1];
      assert (a + b)[..|a + b| - 1] == a + b';
      assert (a + b)[|a + b| - 1] == b[|b| - 1];
      StripNewlinesAppend(a, b');
    } else {
      assert a + b == a;
    }
  }

  // ---------------------------------------------------------------------
  // Upper-casing (strings.ToUpper, for ASCII)
  // ---------------------------------------------------------------------

  predicate IsLower(c: char)
  {
    'a' <= c <= 'z'
  }

  function UpperChar(c: char): (u: char)
    ensures !IsLower(u)
    ensures !IsLower(c) ==> u == c
    ensures IsLower(c) ==> u as int == c as int - 'a' as int + 'A' as int
  {
    if IsLower(c) then (c as int - 'a' as int + 'A' as int) as char else c
  }

  function ToUpper(s: string): (r: string)
    ensures |r| == |s|
    ensures forall k | 0 <= k < |s| :: r[k] == UpperChar(s[k])
    ensures forall k | 0 <= k < |r| :: !IsLower(r[k])
    ensures (forall k | 0 <= k < |s| :: !IsLower(s[k])) ==> r == s
    ensures '\n' in r ==> '\n' in s
  {
    seq(|s|, k requires 0 <= k < |s| => UpperChar(s[k]))
  }

  // ---------------------------------------------------------------------
  // Integer formatting ("%v" of a Go int)
  // ---------------------------------------------------------------------

  predicate IsDigit(c: char)
  {
    '0' <= c <= '9'
  }

  function DigitChar(d: nat): (c: char)
    requires d < 10
    ensures IsDigit(c)
  {
    ('0' as int + d) as char
  }

  /**
   * "%v" of an int: its decimal digits, most significant first, with a
   * leading '-' when negative.
   */
  function IntToString(i: int): (r: string)
    ensures |r| >= 1
    ensures '\n' !in r && '|' !in r && '.' !in r
    ensures i >= 0 <==> r[0] != '-'
    ensures i >= 0 ==> forall k | 0 <= k < |r| :: IsDigit(r[k])
    ensures r[0] == '0' ==> i == 0
    decreases if i < 0 then 1 - i else i
  {
    if i < 0 then "-" + IntToString(-i)
    else if i < 10 then [DigitChar(i)]
    else IntToString(i / 10) + [DigitChar(i % 10)]
  }

  /** The value of a string of decimal digits. */
  function DecimalValue(s: string): nat
    requires forall k | 0 <= k < |s| :: IsDigit(s[k])
  {
    if s == [] then 0
    else
      assert IsDigit(s[|s| - 1]);
      DecimalValue(s[..|s| - 1]) * 10 + (s[|s| - 1] as int - '0' as int)
  }

  /** Reading the digits of a non-negative number back gives the number. */
  lemma {:induction false} IntToStringRoundTrip(n: nat)
    ensures DecimalValue(IntToString(n)) == n
  {
    if n >= 10 {
      IntToStringRoundTrip(n / 10);
      var r := IntToString(n);
      assert r[..|r| - 1] == IntToString(n / 10);
    }
  }

  // ---------------------------------------------------------------------
  // Byte length (Go's len on a UTF-8 string)
  // ---------------------------------------------------------------------

  /** How many bytes UTF-8 uses for `c`. */
  function Utf8Width(c: char): (w: nat)
    ensures 1 <= w <= 4
    ensures w == 1 <==> c as int < 0x80
  {
    if c as int < 0x80 then 1
    else if c as int < 0x800 then 2
    else if c as int < 0x10000 then 3
    else 4
  }

  /** The number of bytes of the UTF-8 encoding of `s`. */
  function Utf8Length(s: string): (n: nat)
    ensures n >= |s|
  {
    if s == [] then 0 else Utf8Length(s[..|s| - 1]) + Utf8Width(s[|s| - 1])
  }

  /** At most one byte means: empty, or one ASCII character. */
  lemma AtMostOneByte(s: string)
    ensures Utf8Length(s) <= 1 <==> (s == [] || (|s| == 1 && s[0] as int < 0x80))
  {
    if |s| == 1 {
      assert s[..0] == [];
    }
  }

  // ---------------------------------------------------------------------
  // Concatenation over a collection in declared order
  // ---------------------------------------------------------------------

  /**
   * The concatenation of `entry(i, xs[i])` for i = 0, 1, ..., |xs| - 1, which
   * is what a `for idx, x := range xs { rv += ... }` loop appends.
   */
  function Join<T>(xs: seq<T>, entry: (int, T) -> string): string
  {
    if xs == [] then "" else Join(xs[..|xs| - 1], entry) + entry(|xs| - 1, xs[|xs| - 1])
  }

  /** One more loop iteration appends the entry for the next element. */
  lemma JoinSnoc<T>(xs: seq<T>, i: nat, entry: (int, T) -> string)
    requires i < |xs|
    ensures Join(xs[..i + 1], entry) == Join(xs[..i], entry) + entry(i, xs[i])
  {
    assert xs[..i + 1][..i] == xs[..i];
  }

  /** A loop step that appends the next entry keeps the accumulator equal to the join so far. */
  lemma JoinStep<T>(xs: seq<T>, i: nat, entry: (int, T) -> string, head: string, acc: string, x: string)
    requires i < |xs| && acc == head + Join(xs[..i], entry) && x == entry(i, xs[i])
    ensures acc + x == head + Join(xs[..i + 1], entry)
  {
    JoinSnoc(xs, i, entry);
  }

  lemma TakeAll<T>(xs: seq<T>)
    ensures xs[..|xs|] == xs
  {
  }

  /** The loop `for idx, x := range xs { rv += entry(idx, x) }`, starting from `head`. */
  method AppendEach<T>(head: string, xs: seq<T>, entry: (int, T) -> string) returns (rv: string)
    ensures rv == head + Join(xs, entry)
  {
    rv := head;
    var i := 0;
    while i < |xs|
      invariant 0 <= i <= |xs|
      invariant rv == head + Join(xs[..i], entry)
    {
      var x := entry(i, xs[i]);
      JoinStep(xs, i, entry, head, rv, x);
      rv := rv + x;
      i := i + 1;
    }
    assert xs[..i] == xs;
  }

  /** The entries of the first `k` elements come first, in order. */
  lemma {:induction false} JoinPrefix<T>(xs: seq<T>, k: nat, entry: (int, T) -> string)
    requires k <= |xs|
    ensures Join(xs[..k], entry) <= Join(xs, entry)
    decreases |xs| - k
  {
    if k < |xs| {
      JoinPrefix(xs, k + 1, entry);
      JoinSnoc(xs, k, entry);
    } else {
      assert xs[..k] == xs;
    }
  }

  /** The entry for element `i` comes right after the entries of the elements before it. */
  lemma JoinOrder<T>(xs: seq<T>, i: nat, entry: (int, T) -> string)
    requires i < |xs|
    ensures Join(xs[..i], entry) + entry(i, xs[i]) <= Join(xs, entry)
  {
    JoinPrefix(xs, i + 1, entry);
    JoinSnoc(xs, i, entry);
  }

  /** The result is empty exactly when every entry is empty. */
  lemma {:induction false} JoinEmptyIff<T>(xs: seq<T>, entry: (int, T) -> string)
    ensures Join(xs, entry) == "" <==> forall i | 0 <= i < |xs| :: entry(i, xs[i]) == ""
  {
    if xs != [] {
      var n := |xs| - 1;
      JoinEmptyIff(xs[..n], entry);
      assert forall i | 0 <= i < n :: xs[..n][i] == xs[i];
    }
  }

  /** Entries that never hold `c` give a concatenation that does not hold it. */
  lemma {:induction false} JoinAvoids<T>(xs: seq<T>, entry: (int, T) -> string, c: char)
    requires forall i | 0 <= i < |xs| :: c !in entry(i, xs[i])
    ensures c !in Join(xs, entry)
  {
    if xs != [] {
      var n := |xs| - 1;
      assert forall i | 0 <= i < n :: xs[..n][i] == xs[i];
      JoinAvoids(xs[..n], entry, c);
    }
  }
  /** The entry for element `i` occurs in the concatenation, in full. */
  lemma JoinHoldsEntry<T>(xs: seq<T>, i: nat, entry: (int, T) -> string)
    requires i < |xs|
    ensures Occurs(entry(i, xs[i]), Join(xs, entry))
  {
    JoinPrefix(xs, i + 1, entry);
    JoinSnoc(xs, i, entry);
    var p := Join(xs[..i], entry);
    var e := entry(i, xs[i]);
    var j := Join(xs, entry);
    assert j[..|p| + |e|] == p + e;
    assert j[|p|..|p| + |e|] == e;
    PieceOccurs(e, j, |p|);
  }

  // ---------------------------------------------------------------------
  // Substrings
  // ---------------------------------------------------------------------

  /** `t` sits in `s` starting at position `k`. */
  predicate PieceAt(t: string, s: string, k: int)
  {
    0 <= k && k + |t| <= |s| && s[k..k + |t|] == t
  }

  /** `t` appears somewhere in `s` as a contiguous piece. */
  predicate Occurs(t: string, s: string)
    decreases |s|
  {
    t <= s || (s != [] && Occurs(t, s[1..]))
  }

  lemma {:induction false} PieceOccurs(t: string, s: string, k: int)
    requires PieceAt(t, s, k)
    ensures Occurs(t, s)
    decreases k
  {
    if k == 0 {
      assert s[..|t|] == t;
    } else {
      assert s[1..][k - 1..k - 1 + |t|] == s[k..k + |t|];
      PieceOccurs(t, s[1..], k - 1);
    }
  }

  lemma {:induction false} OccursPiece(t: string, s: string) returns (k: int)
    requires Occurs(t, s)
    ensures PieceAt(t, s, k)
    decreases |s|
  {
    if t <= s {
      k := 0;
      assert s[..|t|] == t;
    } else {
      var j := OccursPiece(t, s[1..]);
      assert s[1..][j..j + |t|] == s[j + 1..j + 1 + |t|];
      k := j + 1;
    }
  }

  lemma OccursSelf(s: string)
    ensures Occurs(s, s)
  {
  }

  /** Regrouping a concatenation of five pieces around its second. */
  lemma Assoc3(a: string, b: string, c: string, d: string, e: string)
    ensures a + b + c + d + e == a + b + (c + d + e)
  {
  }

  /** What occurs in a piece occurs in anything built around that piece. */
  lemma OccursWithin(t: string, a: string, b: string, c: string)
    requires Occurs(t, b)
    ensures Occurs(t, a + b + c)
  {
    var k := OccursPiece(t, b);
    var s := a + b + c;
    assert s[|a| + k..|a| + k + |t|] == b[k..k + |t|];
    PieceOccurs(t, s, |a| + k);
  }

  lemma OccursLeft(t: string, a: string, b: string)
    requires Occurs(t, a)
    ensures Occurs(t, a + b)
  {
    assert "" + a + b == a + b;
    OccursWithin(t, "", a, b);
  }

  lemma OccursRight(t: string, a: string, b: string)
    requires Occurs(t, b)
    ensures Occurs(t, a + b)
  {
    assert a + b + "" == a + b;
    OccursWithin(t, a, b, "");
  }

  lemma PrefixOccurs(t: string, s: string)
    requires t <= s
    ensures Occurs(t, s)
  {
  }

  lemma PrefixOfLonger(p: string, s: string, t: string)
    requires p <= s
    ensures p <= s + t
  {
    assert (s + t)[..|s|] == s;
  }

  lemma PrefixExtend(a: string, p: string, s: string)
    requires p <= s
    ensures a + p <= a + s
  {
    assert (a + s)[..|a + p|] == a + s[..|p|];
  }

  lemma OccursTransitive(t: string, u: string, s: string)
    requires Occurs(t, u) && Occurs(u, s)
    ensures Occurs(t, s)
  {
    var k := OccursPiece(t, u);
    var m := OccursPiece(u, s);
    forall i | 0 <= i < |t| ensures s[m + k + i] == t[i] {
      assert u[k..k + |t|][i] == t[i];
      assert s[m..m + |u|][k + i] == u[k + i];
    }
    assert s[m + k..m + k + |t|] == t;
    PieceOccurs(t, s, m + k);
  }

  /** How many times `c` appears in `s`. */
  function CountOf(c: char, s: string): nat
  {
    if s == [] then 0 else CountOf(c, s[..|s| - 1]) + (if s[|s| - 1] == c then 1 else 0)
  }

  lemma {:induction false} CountOfConcat(c: char, a: string, b: string)
    ensures CountOf(c, a + b) == CountOf(c, a) + CountOf(c, b)
    decreases |b|
  {
    if b != [] {
      var n := |b| - 1;
      assert (a + b)[..|a + b| - 1] == a + b[..n];
      CountOfConcat(c, a, b[..n]);
    } else {
      assert a + b == a;
    }
  }

  /** A string without `c` counts none of it. */
  lemma {:induction false} CountOfAbsent(c: char, s: string)
    requires c !in s
    ensures CountOf(c, s) == 0
    decreases |s|
  {
    if s != [] {
      CountOfAbsent(c, s[..|s| - 1]);
    }
  }

  /** Counting a character is counting it in the multiset of the string. */
  lemma {:induction false} CountOfMultiset(c: char, s: string)
    ensures CountOf(c, s) == multiset(s)[c]
    decreases |s|
  {
    if s != [] {
      var n := |s| - 1;
      assert s == s[..n] + [s[n]];
      CountOfMultiset(c, s[..n]);
    }
  }

  /** A prindent-ed line counts the newlines of its value, plus its own. */
  lemma IndentedLineCount(depth: int, key: string, value: string)
    requires '\n' !in key
    ensures CountOf('\n', Indented(depth, key + value + "\n")) == CountOf('\n', value) + 1
  {
    var ind := Repeat("    ", depth);
    RepeatSpaces(depth);
    assert '\n' !in ind;
    CountOfMultiset('\n', Indented(depth, key + value + "\n"));
    CountOfMultiset('\n', value);
    assert Indented(depth, key + value + "\n") == ind + key + value + "\n";
  }

  // ---------------------------------------------------------------------
  // Blocks of lines indented at least to a given depth
  // ---------------------------------------------------------------------

  /** Where a line begins in `s`: at the start, or just after a newline. */
  predicate LineStart(s: string, k: int)
  {
    0 <= k < |s| && (k == 0 || s[k - 1] == '\n')
  }

  /**
   * `s` is whole lines (empty, or ending in a newline), and every one of them
   * begins with at least `depth` four-space steps.
   */
  predicate IndentedLines(s: string, depth: int)
  {
    && (s == [] || s[|s| - 1] == '\n')
    && forall k | 0 <= k < |s| && LineStart(s, k) :: Repeat("    ", depth) <= s[k..]
  }

  /** Two blocks of indented lines, one after the other, are one such block. */
  lemma IndentedLinesConcat(a: string, b: string, depth: int)
    requires IndentedLines(a, depth) && IndentedLines(b, depth)
    ensures IndentedLines(a + b, depth)
  {
    var s := a + b;
    var ind := Repeat("    ", depth);
    forall k | LineStart(s, k) ensures ind <= s[k..] {
      if k < |a| {
        assert LineStart(a, k);
        assert s[k..] == a[k..] + b;
      } else {
        assert k == |a| || s[k - 1] == b[k - |a| - 1];
        assert LineStart(b, k - |a|);
        assert s[k..] == b[k - |a|..];
      }
    }
    if b == [] {
      assert s == a;
    } else {
      assert s[|s| - 1] == b[|b| - 1];
    }
  }

  /** Lines indented one level deeper are indented this deep too. */
  lemma IndentedLinesDeeper(s: string, depth: int)
    requires IndentedLines(s, depth + 1)
    ensures IndentedLines(s, depth)
  {
    assert Repeat("    ", depth) <= Repeat("    ", depth + 1);
  }

  /** One prindent-ed line of text without a newline of its own is an indented block. */
  lemma IndentedLine(depth: int, line: string)
    requires '\n' !in line
    ensures IndentedLines(Indented(depth, line + "\n"), depth)
  {
    var ind := Repeat("    ", depth);
    var s := Indented(depth, line + "\n");
    RepeatSpaces(depth);
    forall j | 0 <= j < |s| - 1 ensures s[j] != '\n' {
      if j < |ind| {
        assert s[j] == ind[j];
      } else {
        assert s[j] == line[j - |ind|];
      }
    }
  }

  /** Entries that are indented blocks concatenate to an indented block. */
  lemma {:induction false} JoinIndented<T>(xs: seq<T>, entry: (int, T) -> string, depth: int)
    requires forall i | 0 <= i < |xs| :: IndentedLines(entry(i, xs[i]), depth)
    ensures IndentedLines(Join(xs, entry), depth)
  {
    if xs != [] {
      var n := |xs| - 1;
      assert forall i | 0 <= i < n :: xs[..n][i] == xs[i];
      JoinIndented(xs[..n], entry, depth);
      IndentedLinesConcat(Join(xs[..n], entry), entry(n, xs[n]), depth);
    }
  }
}
