/**
 * The JavaScript string operations the client pages use: `split` on one character,
 * `join`, `trim`, ASCII case mapping, `includes`, and the comma-list transform of the
 * profile forms.
 */
module Text {

  /** Occurrences of `c` in `s`. */
  function Count(s: string, c: char): nat {
    if s == [] then 0 else (if s[0] == c then 1 else 0) + Count(s[1..], c)
  }

  /** `s.split(sep)` for a one-character separator: one part more than separators. */
  function Split(s: string, sep: char): (parts: seq<string>)
    ensures |parts| == Count(s, sep) + 1
    ensures forall k :: 0 <= k < |parts| ==> sep !in parts[k]
    ensures Join(parts, [sep]) == s
    decreases |s|
  {
    if s == [] then [""]
    else
      var rest := Split(s[1..], sep);
      assert s == [s[0]] + s[1..];
      if s[0] == sep then
        JoinAfterBlank(rest, [sep]);
        [""] + rest
      else
        JoinExtendFirst(s[0], rest, [sep]);
        [[s[0]] + rest[0]] + rest[1..]
  }

  /** A blank first part contributes only the separator. */
  lemma JoinAfterBlank(parts: seq<string>, sep: string)
    requires |parts| > 0
    ensures Join([""] + parts, sep) == sep + Join(parts, sep)
  {
    assert ([""] + parts)[1..] == parts;
  }

  /** A character put in front of the first part ends up in front of the join. */
  lemma JoinExtendFirst(c: char, parts: seq<string>, sep: string)
    requires |parts| > 0
    ensures Join([[c] + parts[0]] + parts[1..], sep) == [c] + Join(parts, sep)
  {
    var extended := [[c] + parts[0]] + parts[1..];
    assert extended[1..] == parts[1..];
  }

  /** `parts.join(sep)`: `""` for no parts. */
  function Join(parts: seq<string>, sep: string): string {
    if |parts| == 0 then ""
    else if |parts| == 1 then parts[0]
    else parts[0] + sep + Join(parts[1..], sep)
  }

  /** A string without the separator splits into itself alone. */
  lemma {:induction false} SplitNoSeparator(s: string, sep: char)
    requires sep !in s
    ensures Split(s, sep) == [s]
  {
    if s != [] {
      SplitNoSeparator(s[1..], sep);
      assert [s[0]] + s[1..] == s;
    }
  }

  /** Splitting at the first separator. */
  lemma {:induction false} SplitAtSeparator(a: string, b: string, sep: char)
    requires sep !in a
    ensures Split(a + [sep] + b, sep) == [a] + Split(b, sep)
  {
    var s := a + [sep] + b;
    if a == [] {
      assert s[0] == sep && s[1..] == b;
    } else {
      assert s[0] == a[0] && s[1..] == a[1..] + [sep] + b;
      SplitAtSeparator(a[1..], b, sep);
      assert [a[0]] + a[1..] == a;
    }
  }

  /**
   * Re-splitting a join: with separator `[sep] + pad` (pad free of `sep`), every part but
   * the first comes back prefixed by `pad`; `q` is a carried separator-free prefix.
   */
  lemma {:induction false} SplitJoin(q: string, xs: seq<string>, sep: char, pad: string)
    requires |xs| > 0 && sep !in q && sep !in pad
    requires forall k :: 0 <= k < |xs| ==> sep !in xs[k]
    ensures Split(q + Join(xs, [sep] + pad), sep) ==
            [q + xs[0]] + seq(|xs| - 1, i requires 0 <= i < |xs| - 1 => pad + xs[i + 1])
    decreases |xs|
  {
    var S := [sep] + pad;
    if |xs| == 1 {
      SplitNoSeparator(q + xs[0], sep);
    } else {
      var rest := Join(xs[1..], S);
      assert q + Join(xs, S) == (q + xs[0]) + [sep] + (pad + rest);
      SplitAtSeparator(q + xs[0], pad + rest, sep);
      SplitJoin(pad, xs[1..], sep, pad);
    }
  }

  /** White space and line terminators as `String.prototype.trim` (ECMA-262) removes them. */
  predicate IsSpace(c: char) {
    c == '\t' || c == '\n' || c == '\U{000B}' || c == '\U{000C}' || c == '\r' || c == ' ' ||
    c == '\U{00A0}' || c == '\U{1680}' || ('\U{2000}' <= c <= '\U{200A}') ||
    c == '\U{2028}' || c == '\U{2029}' || c == '\U{202F}' || c == '\U{205F}' ||
    c == '\U{3000}' || c == '\U{FEFF}'
  }

  /** No white space at either end. */
  predicate IsTrimmed(s: string) {
    s == [] || (!IsSpace(s[0]) && !IsSpace(s[|s| - 1]))
  }

  /** `s.trimStart()`: what it drops from the front is white space. */
  function TrimStart(s: string): (r: string)
    ensures r == [] || !IsSpace(r[0])
    ensures |r| <= |s| && r == s[|s| - |r|..]
    ensures forall j :: 0 <= j < |s| - |r| ==> IsSpace(s[j])
  {
    if s != [] && IsSpace(s[0]) then TrimStart(s[1..]) else s
  }

  /** `s.trimEnd()`: what it drops from the back is white space. */
  function TrimEnd(s: string): (r: string)
    ensures r == [] || !IsSpace(r[|r| - 1])
    ensures |r| <= |s| && r == s[..|r|]
    ensures forall j :: |r| <= j < |s| ==> IsSpace(s[j])
  {
    if s != [] && IsSpace(s[|s| - 1]) then TrimEnd(s[..|s| - 1]) else s
  }

  /** Nothing but white space. */
  predicate AllSpace(s: string) {
    forall k :: 0 <= k < |s| ==> IsSpace(s[k])
  }

  /** `s` is `lead` white-space characters, then `r`, then nothing but white space. */
  predicate PaddedBy(s: string, lead: nat, r: string) {
    && lead + |r| <= |s|
    && s == s[..lead] + r + s[lead + |r|..]
    && AllSpace(s[..lead]) && AllSpace(s[lead + |r|..])
  }

  /**
   * `s.trim()`: the result has no white space at either end, and `s` is the result padded
   * with white space; the padding in front is exactly what `TrimStart` drops, so the result
   * is the one piece of `s` that fits.
   */
  function Trim(s: string): (r: string)
    ensures IsTrimmed(r)
    ensures PaddedBy(s, |s| - |TrimStart(s)|, r)
  {
    TrimPieces(s, TrimStart(s), TrimEnd(TrimStart(s)));
    TrimEnd(TrimStart(s))
  }

  /**
   * Where the two halves of `Trim` sit in the input: `t` is a suffix of `s` behind white
   * space, and `r` is a prefix of `t` followed only by white space.
   */
  lemma TrimPieces(s: string, t: string, r: string)
    requires |t| <= |s| && t == s[|s| - |t|..]
    requires forall j :: 0 <= j < |s| - |t| ==> IsSpace(s[j])
    requires |r| <= |t| && r == t[..|r|]
    requires forall j :: |r| <= j < |t| ==> IsSpace(t[j])
    requires (t == [] || !IsSpace(t[0])) && (r == [] || !IsSpace(r[|r| - 1]))
    ensures IsTrimmed(r)
    ensures PaddedBy(s, |s| - |t|, r)
  {
    var i := |s| - |t|;
    assert r != [] ==> r[0] == t[0];
    assert s == s[..i] + t;
    assert t == r + t[|r|..];
    assert s[i + |r|..] == t[|r|..];
    assert forall k :: 0 <= k < i ==> s[..i][k] == s[k];
  }

  /** Trimming a trimmed string changes nothing. */
  lemma TrimTrimmed(s: string)
    requires IsTrimmed(s)
    ensures Trim(s) == s
  {
  }

  /** Trimming a trimmed string with blanks in front gives the string back. */
  lemma TrimPadded(pad: string, s: string)
    requires forall k :: 0 <= k < |pad| ==> IsSpace(pad[k])
    requires IsTrimmed(s)
    ensures Trim(pad + s) == s
  {
    TrimStartPadded(pad, s);
  }

  /** `trimStart` drops white space in front of a string that does not start with any. */
  lemma {:induction false} TrimStartPadded(pad: string, s: string)
    requires forall k :: 0 <= k < |pad| ==> IsSpace(pad[k])
    requires s == [] || !IsSpace(s[0])
    ensures TrimStart(pad + s) == s
  {
    if pad != [] {
      assert (pad + s)[0] == pad[0];
      assert (pad + s)[1..] == pad[1..] + s;
      TrimStartPadded(pad[1..], s);
    } else {
      assert pad + s == s;
    }
  }

  /** `str.split(',').map(x => x.trim())`, the profile forms' list transform. */
  function ParseCommaList(s: string): (r: seq<string>)
    ensures |r| == Count(s, ',') + 1
    ensures forall k :: 0 <= k < |r| ==> IsTrimmed(r[k]) && ',' !in r[k]
  {
    TrimAll(Split(s, ','))
  }

  /** `parts.map(x => x.trim())`. */
  function TrimAll(parts: seq<string>): (r: seq<string>)
    ensures |r| == |parts| && forall k :: 0 <= k < |r| ==> r[k] == Trim(parts[k])
  {
    seq(|parts|, i requires 0 <= i < |parts| => Trim(parts[i]))
  }

  /** `list.join(", ")`, how the forms show a stored list for editing. */
  function JoinCommaList(xs: seq<string>): string {
    Join(xs, ", ")
  }

  /** The empty input is not the empty list: `"".split(',')` is `[""]`. */
  lemma EmptyParsesToOneBlank()
    ensures ParseCommaList("") == [""]
  {
    assert Split("", ',') == [""];
  }

  /** Showing an empty list and submitting it back yields one blank entry. */
  lemma EmptyListRoundTrip()
    ensures ParseCommaList(JoinCommaList([])) == [""]
  {
    EmptyParsesToOneBlank();
  }

  /** Splitting a `", "`-join at the commas: the first entry as it was, the others behind one blank. */
  lemma CommaJoinSplits(xs: seq<string>)
    requires |xs| > 0
    requires forall k :: 0 <= k < |xs| ==> ',' !in xs[k]
    ensures var parts := Split(JoinCommaList(xs), ',');
      |parts| == |xs| && parts[0] == xs[0] && forall k :: 1 <= k < |xs| ==> parts[k] == " " + xs[k]
  {
    assert ", " == [','] + " ";
    SplitJoin("", xs, ',', " ");
    assert "" + JoinCommaList(xs) == JoinCommaList(xs);
    assert "" + xs[0] == xs[0];
  }

  /** Showing a list and submitting it back returns it, if its entries are trimmed and comma-free. */
  lemma CommaListRoundTrip(xs: seq<string>)
    requires |xs| > 0
    requires forall k :: 0 <= k < |xs| ==> IsTrimmed(xs[k]) && ',' !in xs[k]
    ensures ParseCommaList(JoinCommaList(xs)) == xs
  {
    CommaJoinSplits(xs);
    var parts := Split(JoinCommaList(xs), ',');
    TrimAllParts(parts, xs);
    SamePointwise(TrimAll(parts), xs);
  }

  /** Two sequences that agree at every index are equal. */
  lemma SamePointwise<T>(a: seq<T>, b: seq<T>)
    requires |a| == |b| && forall k :: 0 <= k < |a| ==> a[k] == b[k]
    ensures a == b
  {
  }

  /** Trimming the parts of a `", "`-join gives back the trimmed entries. */
  lemma TrimAllParts(parts: seq<string>, xs: seq<string>)
    requires |parts| == |xs| > 0 && parts[0] == xs[0]
    requires forall k :: 1 <= k < |xs| ==> parts[k] == " " + xs[k]
    requires forall k :: 0 <= k < |xs| ==> IsTrimmed(xs[k])
    ensures forall k :: 0 <= k < |xs| ==> Trim(parts[k]) == xs[k]
  {
    forall k | 0 <= k < |xs| ensures Trim(parts[k]) == xs[k] {
      TrimPart(parts[k], xs[k], k == 0);
    }
  }

  /** One part of a `", "`-join: the entry itself, or the entry behind one blank. */
  lemma TrimPart(part: string, x: string, first: bool)
    requires IsTrimmed(x) && part == (if first then x else " " + x)
    ensures Trim(part) == x
  {
    if first {
      TrimTrimmed(x);
    } else {
      TrimPadded(" ", x);
    }
  }

  /** ASCII upper-case mapping of one character. */
  function UpperChar(c: char): char {
    if 'a' <= c <= 'z' then (c as int - 32) as char else c
  }

  /** ASCII lower-case mapping of one character. */
  function LowerChar(c: char): char {
    if 'A' <= c <= 'Z' then (c as int + 32) as char else c
  }

  function ToUpper(s: string): (r: string)
    ensures |r| == |s| && forall k :: 0 <= k < |s| ==> r[k] == UpperChar(s[k])
  {
    seq(|s|, i requires 0 <= i < |s| => UpperChar(s[i]))
  }

  function ToLower(s: string): (r: string)
    ensures |r| == |s| && forall k :: 0 <= k < |s| ==> r[k] == LowerChar(s[k])
  {
    seq(|s|, i requires 0 <= i < |s| => LowerChar(s[i]))
  }

  /** `needle` occurs in `hay` starting at position `i`. */
  predicate OccursAt(hay: string, needle: string, i: int) {
    0 <= i && i + |needle| <= |hay| && hay[i..i + |needle|] == needle
  }

  /** `hay.includes(needle)`: `needle` occurs somewhere in `hay` (the empty string always does). */
  function Contains(hay: string, needle: string): (r: bool)
    ensures r <==> exists i :: OccursAt(hay, needle, i)
    decreases |hay|
  {
    if needle <= hay then
      assert OccursAt(hay, needle, 0);
      true
    else if hay == [] then false
    else
      var r := Contains(hay[1..], needle);
      ContainsStep(hay, needle);
      r
  }

  /** An occurrence past the first position is an occurrence in the tail. */
  lemma ContainsStep(hay: string, needle: string)
    requires hay != [] && !(needle <= hay)
    ensures (exists i :: OccursAt(hay, needle, i)) <==> (exists i :: OccursAt(hay[1..], needle, i))
  {
    if exists i :: OccursAt(hay, needle, i) {
      var i :| OccursAt(hay, needle, i);
      assert hay[1..][i - 1..i - 1 + |needle|] == hay[i..i + |needle|];
      assert OccursAt(hay[1..], needle, i - 1);
    }
    if exists i :: OccursAt(hay[1..], needle, i) {
      var i :| OccursAt(hay[1..], needle, i);
      assert hay[1..][i..i + |needle|] == hay[i + 1..i + 1 + |needle|];
      assert OccursAt(hay, needle, i + 1);
    }
  }

  /** Decimal digits of a natural number, as a template literal renders it. */
  function DecimalString(n: nat): (r: string)
    ensures |r| > 0 && forall k :: 0 <= k < |r| ==> '0' <= r[k] <= '9'
  {
    if n < 10 then [('0' as int + n) as char]
    else DecimalString(n / 10) + [('0' as int + n % 10) as char]
  }

  /** The value a string of decimal digits denotes. */
  function DecimalValue(s: string): int
    requires forall k :: 0 <= k < |s| ==> '0' <= s[k] <= '9'
  {
    if s == [] then 0 else 10 * DecimalValue(s[..|s| - 1]) + (s[|s| - 1] as int - '0' as int)
  }

  /** The rendered digits denote the number again. */
  lemma {:induction false} DecimalRoundTrip(n: nat)
    ensures DecimalValue(DecimalString(n)) == n
  {
    if n >= 10 {
      DecimalRoundTrip(n / 10);
      var s := DecimalString(n);
      assert s[..|s| - 1] == DecimalString(n / 10);
    }
  }
}
