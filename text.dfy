/**
 * The parts of Python's `str` that the resume bot relies on, over ASCII:
 * `strip`, `lower`, `upper`, `split` with a separator, `join`, `replace`
 * of a single character and `startswith`.
 */
module Text {
  import opened Wrappers

  /** `str.isspace`, restricted to ASCII: tab to carriage return, the four separators 0x1C-0x1F, space. */
  predicate IsSpace(c: char) {
    c == ' ' || ('\t' <= c <= '\r') || ('\U{1c}' <= c <= '\U{1f}')
  }

  predicate IsUpper(c: char) { 'A' <= c <= 'Z' }

  predicate IsLower(c: char) { 'a' <= c <= 'z' }

  predicate IsDigit(c: char) { '0' <= c <= '9' }

  /** `p` occurs in `s` at position `k`. */
  predicate OccursAt(s: string, p: string, k: nat) {
    k + |p| <= |s| && s[k..k + |p|] == p
  }

  /** `p` occurs in `s` at some position. */
  ghost predicate Contains(s: string, p: string) {
    exists k: nat :: OccursAt(s, p, k)
  }

  predicate StartsWith(s: string, p: string) {
    |p| <= |s| && s[..|p|] == p
  }

  predicate EndsWith(s: string, p: string) {
    |p| <= |s| && s[|s| - |p|..] == p
  }

  // ---------------------------------------------------------------------------
  // strip

  /** Drops leading whitespace. */
  function TrimLeft(s: string): (r: string)
    ensures |r| <= |s| && r == s[|s| - |r|..]
    ensures r == [] || !IsSpace(r[0])
    ensures forall i :: 0 <= i < |s| - |r| ==> IsSpace(s[i])
  {
    if s != [] && IsSpace(s[0]) then TrimLeft(s[1..]) else s
  }

  /** Drops trailing whitespace. */
  function TrimRight(s: string): (r: string)
    ensures |r| <= |s| && r == s[..|r|]
    ensures r == [] || !IsSpace(r[|r| - 1])
    ensures forall i :: |r| <= i < |s| ==> IsSpace(s[i])
  {
    if s != [] && IsSpace(s[|s| - 1]) then TrimRight(s[..|s| - 1]) else s
  }

  /** Every character of `s` is whitespace (so the empty text is blank). */
  predicate Blank(s: string) {
    forall i :: 0 <= i < |s| ==> IsSpace(s[i])
  }

  /** `r` is the slice of `s` at `k`, and everything of `s` around it is whitespace. */
  predicate SpaceAround(s: string, k: nat, r: string) {
    && k + |r| <= |s|
    && r == s[k..k + |r|]
    && (forall i :: 0 <= i < k ==> IsSpace(s[i]))
    && (forall i :: k + |r| <= i < |s| ==> IsSpace(s[i]))
  }

  /** `str.strip()`: whitespace dropped at both ends. */
  function Strip(s: string): (r: string)
    ensures |r| <= |s|
    ensures r == [] || (!IsSpace(r[0]) && !IsSpace(r[|r| - 1]))
  {
    TrimRight(TrimLeft(s))
  }

  /** What `Strip` keeps is one slice of the text with only whitespace around it, so it is
      empty exactly when the text is blank. */
  lemma {:induction false} StripSlice(s: string)
    ensures SpaceAround(s, |s| - |TrimLeft(s)|, Strip(s))
    ensures Strip(s) == [] <==> Blank(s)
  {
    var l := TrimLeft(s);
    var k := |s| - |l|;
    var r := TrimRight(l);
    assert r == Strip(s);
    assert l == s[k..] && r == l[..|r|];
    assert r == s[k..k + |r|];
    forall i | k + |r| <= i < |s|
      ensures IsSpace(s[i])
    {
      assert s[i] == l[i - k];
    }
    assert SpaceAround(s, k, r);
    if r != [] {
      assert s[k] == r[0];
    }
  }

  // ---------------------------------------------------------------------------
  // lower / upper

  function LowerChar(c: char): char {
    if IsUpper(c) then (c as int + 32) as char else c
  }

  function UpperChar(c: char): char {
    if IsLower(c) then (c as int - 32) as char else c
  }

  /** `str.lower()` on ASCII letters: same length, every upper-case letter turned into a
      lower-case one, and every other character kept where it was. */
  function Lower(s: string): (r: string)
    ensures |r| == |s|
    ensures forall i :: 0 <= i < |r| ==> !IsUpper(r[i])
    ensures forall i :: 0 <= i < |s| && IsUpper(s[i]) ==> IsLower(r[i])
    ensures forall i :: 0 <= i < |s| && !IsUpper(s[i]) ==> r[i] == s[i]
    ensures forall i :: 0 <= i < |s| ==> (IsSpace(r[i]) <==> IsSpace(s[i]))
  {
    seq(|s|, i requires 0 <= i < |s| => LowerChar(s[i]))
  }

  /** Lower-casing keeps a text free of whitespace at both ends. */
  lemma {:induction false} LowerKeepsEnds(s: string)
    requires s == [] || (!IsSpace(s[0]) && !IsSpace(s[|s| - 1]))
    ensures var r := Lower(s); r == [] || (!IsSpace(r[0]) && !IsSpace(r[|r| - 1]))
  {
  }

  /** `str.upper()` on ASCII letters: same length, no lower-case letter left, and every
      character that is not a lower-case letter kept where it was. */
  function Upper(s: string): (r: string)
    ensures |r| == |s|
    ensures forall i :: 0 <= i < |r| ==> !IsLower(r[i])
    ensures forall i :: 0 <= i < |s| && !IsLower(s[i]) ==> r[i] == s[i]
  {
    seq(|s|, i requires 0 <= i < |s| => UpperChar(s[i]))
  }

  /** Upper-casing changes only letters, so it keeps a character that is not a letter out. */
  lemma {:induction false} UpperKeepsOut(s: string, c: char)
    requires !IsLower(c) && !IsUpper(c)
    requires c !in s
    ensures c !in Upper(s)
  {
  }

  // ---------------------------------------------------------------------------
  // join / find / split

  /** `sep.join(parts)`. */
  function Join(parts: seq<string>, sep: string): (r: string)
    ensures parts == [] ==> r == []
    ensures |parts| == 1 ==> r == parts[0]
  {
    if |parts| == 0 then []
    else if |parts| == 1 then parts[0]
    else parts[0] + sep + Join(parts[1..], sep)
  }

  /** `str.find(sep)` from position `i` on, knowing that `sep` does not occur before `i`. */
  function FindFrom(s: string, sep: string, i: nat): (r: Option<nat>)
    requires |sep| > 0 && i <= |s|
    requires forall k: nat :: k < i ==> !OccursAt(s, sep, k)
    ensures r.Some? ==> i <= r.value && OccursAt(s, sep, r.value)
    ensures r.Some? ==> forall k: nat :: k < r.value ==> !OccursAt(s, sep, k)
    ensures r.None? ==> forall k: nat :: !OccursAt(s, sep, k)
    decreases |s| - i
  {
    if i + |sep| > |s| then None
    else if OccursAt(s, sep, i) then Some(i)
    else FindFrom(s, sep, i + 1)
  }

  /** `str.find(sep)`: the first position at which `sep` occurs, or None when it does not occur. */
  function Find(s: string, sep: string): (r: Option<nat>)
    requires |sep| > 0
    ensures r.Some? ==> OccursAt(s, sep, r.value)
    ensures r.Some? ==> forall k: nat :: k < r.value ==> !OccursAt(s, sep, k)
    ensures r.None? <==> !Contains(s, sep)
  {
    FindFrom(s, sep, 0)
  }

  /** `str.split(sep)` with a non-empty separator: the pieces between the occurrences of
      `sep` found scanning from the left. There is always at least one piece, and no piece
      contains the separator. */
  function Split(s: string, sep: string): (r: seq<string>)
    requires |sep| > 0
    ensures |r| >= 1
    ensures forall i :: 0 <= i < |r| ==> !Contains(r[i], sep)
    decreases |s|
  {
    match Find(s, sep)
    case None => [s]
    case Some(i) =>
      BeforeFirst(s, sep, i);
      [s[..i]] + Split(s[i + |sep|..], sep)
  }

  /** The text before the first occurrence of a separator does not contain it. */
  lemma {:induction false} BeforeFirst(s: string, sep: string, i: nat)
    requires |sep| > 0 && Find(s, sep) == Some(i)
    ensures i + |sep| <= |s|
    ensures !Contains(s[..i], sep)
  {
    assert OccursAt(s, sep, i);
    var head := s[..i];
    forall k: nat | k + |sep| <= |head|
      ensures !OccursAt(head, sep, k)
    {
      assert head[k..k + |sep|] == s[k..k + |sep|];
      assert !OccursAt(s, sep, k);
    }
  }

  lemma {:induction false} FindInside(s: string, sep: string, i: nat)
    requires |sep| > 0 && Find(s, sep) == Some(i)
    ensures i + |sep| <= |s|
  {
    assert OccursAt(s, sep, i);
  }

  lemma {:induction false} SplitUnfold(s: string, sep: string, i: nat)
    requires |sep| > 0 && Find(s, sep) == Some(i) && i + |sep| <= |s|
    ensures Split(s, sep) == [s[..i]] + Split(s[i + |sep|..], sep)
  {
  }

  lemma {:induction false} JoinAfter(head: string, tail: seq<string>, sep: string)
    requires tail != []
    ensures Join([head] + tail, sep) == head + sep + Join(tail, sep)
  {
    assert ([head] + tail)[1..] == tail;
  }

  /** Joining the pieces of a split with the same separator gives back the original text. */
  lemma {:induction false} JoinSplit(s: string, sep: string)
    requires |sep| > 0
    ensures Join(Split(s, sep), sep) == s
    decreases |s|
  {
    match Find(s, sep)
    case None =>
    case Some(i) =>
      FindInside(s, sep, i);
      var rest := s[i + |sep|..];
      var tail := Split(rest, sep);
      SplitUnfold(s, sep, i);
      JoinAfter(s[..i], tail, sep);
      JoinSplit(rest, sep);
      assert s == s[..i] + sep + rest;
  }

  // ---------------------------------------------------------------------------
  // replace / character maps

  /** `s.replace(c, by)` for a one-character pattern: every `c` becomes `rep`. */
  function Replace(s: string, c: char, rep: string): (r: string)
    ensures c !in s ==> r == s
    ensures c !in rep ==> c !in r
  {
    if s == [] then [] else (if s[0] == c then rep else [s[0]]) + Replace(s[1..], c, rep)
  }

  /** Replacing a character by one character keeps the length. */
  lemma {:induction false} ReplaceKeepsLength(s: string, c: char, rep: string)
    requires |rep| == 1
    ensures |Replace(s, c, rep)| == |s|
  {
    if s != [] {
      ReplaceKeepsLength(s[1..], c, rep);
    }
  }

  lemma {:induction false} ReplaceAppend(s: string, t: string, c: char, rep: string)
    ensures Replace(s + t, c, rep) == Replace(s, c, rep) + Replace(t, c, rep)
  {
    if s == [] {
      assert s + t == t;
    } else {
      assert (s + t)[1..] == s[1..] + t;
      ReplaceAppend(s[1..], t, c, rep);
    }
  }

  /** Every character of `s` mapped to a string, the results concatenated. */
  function FlatMap(s: string, f: char -> string): (r: string)
    ensures (forall i :: 0 <= i < |s| ==> f(s[i]) == [s[i]]) ==> r == s
  {
    if s == [] then [] else f(s[0]) + FlatMap(s[1..], f)
  }

  lemma {:induction false} FlatMapAppend(s: string, t: string, f: char -> string)
    ensures FlatMap(s + t, f) == FlatMap(s, f) + FlatMap(t, f)
  {
    if s == [] {
      assert s + t == t;
    } else {
      assert (s + t)[1..] == s[1..] + t;
      FlatMapAppend(s[1..], t, f);
    }
  }

  /** A character that no image contains does not occur in the result. */
  lemma {:induction false} FlatMapKeepsOut(s: string, f: char -> string, c: char)
    requires forall i :: 0 <= i < |s| ==> c !in f(s[i])
    ensures c !in FlatMap(s, f)
  {
    if s != [] {
      FlatMapKeepsOut(s[1..], f, c);
    }
  }

  /** The characters of `s` that are ASCII digits, in order (`re.sub(r'\D', '', s)`). */
  function DigitsOf(s: string): (r: string)
    ensures forall i :: 0 <= i < |r| ==> IsDigit(r[i])
    ensures |r| <= |s|
  {
    if s == [] then [] else (if IsDigit(s[0]) then [s[0]] else []) + DigitsOf(s[1..])
  }

  /** Keeps the non-empty strings of `xs`, in order (`[x for x in xs if x]`). */
  function NonEmpty(xs: seq<string>): (r: seq<string>)
    ensures |r| <= |xs|
    ensures forall x :: x in r <==> x in xs && x != []
  {
    if xs == [] then [] else (if xs[0] != [] then [xs[0]] else []) + NonEmpty(xs[1..])
  }

  // ---------------------------------------------------------------------------
  // building text from pieces

  /** `s` is `t` with `x` inserted at position `k`. */
  predicate InsertedAt(s: string, t: string, x: string, k: nat) {
    k <= |t| && s == t[..k] + x + t[k..]
  }

  /** A string contains itself. */
  lemma {:induction false} ContainsSelf(s: string)
    ensures Contains(s, s)
  {
    assert OccursAt(s, s, 0);
  }

  /** A joined list starts with its first element. */
  lemma {:induction false} JoinStartsWithFirst(parts: seq<string>, sep: string)
    requires parts != []
    ensures StartsWith(Join(parts, sep), parts[0])
  {
    if |parts| > 1 {
      var r := Join(parts, sep);
      assert r == parts[0] + (sep + Join(parts[1..], sep));
      assert r[..|parts[0]|] == parts[0];
    }
  }

  /** A one-element list for a present value, the empty list otherwise. */
  function Emitted(o: Option<string>): (r: seq<string>)
    ensures |r| <= 1
    ensures r == [] <==> o.None?
  {
    if o.Some? then [o.value] else []
  }

  /** The values `f` yields over `xs`, in order, skipping the entries it maps to `None`
      (a loop that appends an item for some of the entries). */
  function Collect<T>(xs: seq<T>, f: T -> Option<string>): (r: seq<string>)
    ensures |r| <= |xs|
  {
    if xs == [] then [] else Collect(xs[..|xs| - 1], f) + Emitted(f(xs[|xs| - 1]))
  }

  /** Collecting over a concatenation collects each part in turn: input order is kept. */
  lemma {:induction false} CollectAppend<T>(xs: seq<T>, ys: seq<T>, f: T -> Option<string>)
    ensures Collect(xs + ys, f) == Collect(xs, f) + Collect(ys, f)
  {
    if ys == [] {
      assert xs + ys == xs;
    } else {
      var n := |ys| - 1;
      assert (xs + ys)[..|xs + ys| - 1] == xs + ys[..n];
      assert (xs + ys)[|xs + ys| - 1] == ys[n];
      CollectAppend(xs, ys[..n], f);
    }
  }

  /** Nothing is collected exactly when every entry is skipped. */
  lemma {:induction false} CollectEmpty<T>(xs: seq<T>, f: T -> Option<string>)
    ensures Collect(xs, f) == [] <==> forall i :: 0 <= i < |xs| ==> f(xs[i]).None?
  {
    if xs != [] {
      var n := |xs| - 1;
      CollectEmpty(xs[..n], f);
      assert forall i :: 0 <= i < n ==> xs[..n][i] == xs[i];
    }
  }

  /** Every collected value is what `f` yields for some entry. */
  lemma {:induction false} CollectFrom<T>(xs: seq<T>, f: T -> Option<string>, i: nat)
    requires i < |Collect(xs, f)|
    ensures exists j :: 0 <= j < |xs| && f(xs[j]) == Some(Collect(xs, f)[i])
  {
    var n := |xs| - 1;
    if i < |Collect(xs[..n], f)| {
      CollectFrom(xs[..n], f, i);
      var j :| 0 <= j < n && f(xs[..n][j]) == Some(Collect(xs[..n], f)[i]);
      assert xs[..n][j] == xs[j];
    } else {
      assert f(xs[n]) == Some(Collect(xs, f)[i]);
    }
  }

  /** Text contained in the left part is contained in the whole. */
  lemma {:induction false} ContainsLeft(a: string, b: string, p: string)
    requires Contains(a, p)
    ensures Contains(a + b, p)
  {
    var k: nat :| OccursAt(a, p, k);
    assert (a + b)[k..k + |p|] == a[k..k + |p|];
    assert OccursAt(a + b, p, k);
  }

  /** Text contained in the right part is contained in the whole. */
  lemma {:induction false} ContainsRight(a: string, b: string, p: string)
    requires Contains(b, p)
    ensures Contains(a + b, p)
  {
    var k: nat :| OccursAt(b, p, k);
    assert (a + b)[|a| + k..|a| + k + |p|] == b[k..k + |p|];
    assert OccursAt(a + b, p, |a| + k);
  }

  /** Concatenation regroups freely. */
  lemma {:induction false} AppendAssoc<T>(a: seq<T>, b: seq<T>, c: seq<T>)
    ensures a + (b + c) == a + b + c
  {
  }

  /** The left part of a concatenation is a prefix, the right part a suffix. */
  lemma {:induction false} AppendEnds(a: string, b: string)
    ensures StartsWith(a + b, a) && EndsWith(a + b, b)
  {
    assert (a + b)[..|a|] == a;
    assert (a + b)[|a + b| - |b|..] == b;
  }

  /** `a + x + b` is `a + b` with `x` inserted after `a`. */
  lemma {:induction false} InsertMiddle(a: string, x: string, b: string)
    ensures InsertedAt(a + x + b, a + b, x, |a|)
  {
    assert (a + b)[..|a|] == a;
    assert (a + b)[|a|..] == b;
  }

  /** A prefix of a prefix is a prefix. */
  lemma {:induction false} StartsWithTrans(s: string, p: string, q: string)
    requires StartsWith(s, p) && StartsWith(p, q)
    ensures StartsWith(s, q)
  {
    assert s[..|q|] == p[..|q|];
  }

  /** A character in no part and not in the separator is not in the joined text. */
  lemma {:induction false} JoinKeepsOut(parts: seq<string>, sep: string, c: char)
    requires c !in sep
    requires forall i :: 0 <= i < |parts| ==> c !in parts[i]
    ensures c !in Join(parts, sep)
  {
    if |parts| > 1 {
      JoinKeepsOut(parts[1..], sep, c);
    }
  }

  /** Filtering empty strings distributes over concatenation. */
  lemma {:induction false} NonEmptyAppend(xs: seq<string>, ys: seq<string>)
    ensures NonEmpty(xs + ys) == NonEmpty(xs) + NonEmpty(ys)
  {
    if xs == [] {
      assert xs + ys == ys;
    } else {
      assert (xs + ys)[1..] == xs[1..] + ys;
      NonEmptyAppend(xs[1..], ys);
    }
  }

  /** A one-element list keeps its element when it is non-empty. */
  lemma {:induction false} NonEmptyOne(x: string)
    ensures NonEmpty([x]) == if x != [] then [x] else []
  {
    assert [x][1..] == [];
  }

  /** A function that never skips collects one value per entry. */
  lemma {:induction false} CollectTotal<T>(xs: seq<T>, f: T -> Option<string>)
    requires forall i :: 0 <= i < |xs| ==> f(xs[i]).Some?
    ensures |Collect(xs, f)| == |xs|
  {
    if xs != [] {
      var n := |xs| - 1;
      assert forall i :: 0 <= i < n ==> xs[..n][i] == xs[i];
      CollectTotal(xs[..n], f);
    }
  }

  /** Every collected value satisfies what every yielded value satisfies. */
  lemma {:induction false} CollectAll<T>(xs: seq<T>, f: T -> Option<string>, c: char)
    requires forall i :: 0 <= i < |xs| && f(xs[i]).Some? ==> c !in f(xs[i]).value
    ensures forall i :: 0 <= i < |Collect(xs, f)| ==> c !in Collect(xs, f)[i]
  {
    forall i | 0 <= i < |Collect(xs, f)|
      ensures c !in Collect(xs, f)[i]
    {
      CollectFrom(xs, f, i);
    }
  }

  /** The loop behind `Collect`: one pass over `xs`, appending what `f` yields. */
  method Gather<T>(xs: seq<T>, f: T -> Option<string>) returns (items: seq<string>)
    ensures items == Collect(xs, f)
  {
    items := [];
    for i := 0 to |xs|
      invariant items == Collect(xs[..i], f)
    {
      assert xs[..i + 1][..i] == xs[..i];
      var item := f(xs[i]);
      if item.Some? {
        items := items + [item.value];
      }
    }
    assert xs[..|xs|] == xs;
  }

  /** The blocks `f` writes for the entries of `xs`, one after another (a loop that appends
      a block of text, or of items, per entry). */
  function Concat<T, U>(xs: seq<T>, f: T -> seq<U>): seq<U> {
    if xs == [] then [] else Concat(xs[..|xs| - 1], f) + f(xs[|xs| - 1])
  }

  /** A concatenation over a concatenation is the two concatenations in turn. */
  lemma {:induction false} ConcatAppend<T, U>(xs: seq<T>, ys: seq<T>, f: T -> seq<U>)
    ensures Concat(xs + ys, f) == Concat(xs, f) + Concat(ys, f)
  {
    if ys == [] {
      assert xs + ys == xs;
    } else {
      var n := |ys| - 1;
      assert (xs + ys)[..|xs + ys| - 1] == xs + ys[..n];
      assert (xs + ys)[|xs + ys| - 1] == ys[n];
      ConcatAppend(xs, ys[..n], f);
    }
  }

  /** The concatenation over one entry is that entry's block. */
  lemma {:induction false} ConcatOne<T, U>(x: T, f: T -> seq<U>)
    ensures Concat([x], f) == f(x)
  {
    assert [x][..0] == [];
  }

  /** Entries whose blocks are all empty concatenate to nothing. */
  lemma {:induction false} ConcatNone<T, U>(xs: seq<T>, f: T -> seq<U>)
    requires forall i :: 0 <= i < |xs| ==> f(xs[i]) == []
    ensures Concat(xs, f) == []
  {
    if xs != [] {
      ConcatNone(xs[..|xs| - 1], f);
    }
  }

  /** The loop behind `Concat`: appends the block for each entry of `xs` to `text`. */
  method Emit<T, U>(text: seq<U>, xs: seq<T>, f: T -> seq<U>) returns (out: seq<U>)
    ensures out == text + Concat(xs, f)
  {
    out := text;
    for i := 0 to |xs|
      invariant out == text + Concat(xs[..i], f)
    {
      assert xs[..i + 1][..i] == xs[..i];
      out := out + f(xs[i]);
    }
    assert xs[..|xs|] == xs;
  }

  /** The digits of a concatenation are the digits of each part. */
  lemma {:induction false} DigitsAppend(s: string, t: string)
    ensures DigitsOf(s + t) == DigitsOf(s) + DigitsOf(t)
  {
    if s == [] {
      assert s + t == t;
    } else {
      assert (s + t)[1..] == s[1..] + t;
      DigitsAppend(s[1..], t);
    }
  }

  /** Text without digits has none to keep. */
  lemma {:induction false} DigitsNone(s: string)
    requires forall i :: 0 <= i < |s| ==> !IsDigit(s[i])
    ensures DigitsOf(s) == []
  {
    if s != [] {
      DigitsNone(s[1..]);
    }
  }

  /** A character map that keeps the digits of every character keeps the digits of the text. */
  lemma {:induction false} FlatMapDigits(s: string, f: char -> string)
    requires forall c :: DigitsOf(f(c)) == DigitsOf([c])
    ensures DigitsOf(FlatMap(s, f)) == DigitsOf(s)
  {
    if s != [] {
      DigitsAppend(f(s[0]), FlatMap(s[1..], f));
      assert s == [s[0]] + s[1..];
      DigitsAppend([s[0]], s[1..]);
      FlatMapDigits(s[1..], f);
    }
  }

  /** A text that starts with the first character of `p` starts with `p` exactly when the
      rest of it starts with the rest of `p`. */
  lemma {:induction false} StartsWithCons(x: char, t: string, p: string)
    requires p != [] && x == p[0]
    ensures StartsWith([x] + t, p) <==> StartsWith(t, p[1..])
  {
    assert ([x] + t)[1..] == t;
    if |p| <= |[x] + t| {
      assert ([x] + t)[..|p|] == [x] + t[..|p| - 1];
    }
    assert p == [p[0]] + p[1..];
  }

  /** A character map that keeps the characters of `p` and sends every other character to
      text starting outside `p` starts with `p` exactly when its input does. */
  lemma {:induction false} FlatMapStartsWith(s: string, f: char -> string, p: string)
    requires forall c :: f(c) != []
    requires forall c :: c in p ==> f(c) == [c]
    requires forall c :: c !in p ==> f(c)[0] !in p
    ensures StartsWith(FlatMap(s, f), p) <==> StartsWith(s, p)
    decreases |s|
  {
    if p != [] && s != [] {
      var c := s[0];
      var rest := FlatMap(s[1..], f);
      assert FlatMap(s, f) == f(c) + rest;
      if c == p[0] {
        assert f(c) == [c];
        assert forall x :: x in p[1..] ==> x in p;
        forall x | x !in p[1..]
          ensures f(x)[0] !in p[1..]
        {
          if x in p {
            assert f(x) == [x];
          }
        }
        FlatMapStartsWith(s[1..], f, p[1..]);
        StartsWithCons(c, rest, p);
        assert s == [c] + s[1..];
        StartsWithCons(c, s[1..], p);
      } else {
        if c in p {
          assert f(c) == [c];
        }
        assert f(c)[0] != p[0];
        assert (f(c) + rest)[0] == f(c)[0];
      }
    }
  }
}
