/** The string operations the frontmatter codec uses. */
module FrontmatterText {

  const NEWLINE: char := '\n'

  predicate Free(s: string, sep: char) {
    sep !in s
  }

  /** `sep.join(parts)`. */
  function Join(parts: seq<string>, sep: char): string {
    if parts == [] then "" else if |parts| == 1 then parts[0] else parts[0] + [sep] + Join(parts[1..], sep)
  }

  /** The index of the first separator, or the length. */
  function PartEnd(s: string, sep: char): (n: nat)
    ensures n <= |s| && Free(s[..n], sep) && (n < |s| ==> s[n] == sep)
  {
    if s == "" || s[0] == sep then 0 else 1 + PartEnd(s[1..], sep)
  }

  /** `s.split(sep)`. */
  function Split(s: string, sep: char): (parts: seq<string>)
    ensures parts != []
    ensures forall i :: 0 <= i < |parts| ==> Free(parts[i], sep)
    decreases |s|
  {
    var n := PartEnd(s, sep);
    if n == |s| then assert s[..n] == s; [s] else [s[..n]] + Split(s[n + 1..], sep)
  }

  lemma PartEndIs(part: string, rest: string, sep: char)
    requires Free(part, sep) && (rest == "" || rest[0] == sep)
    ensures PartEnd(part + rest, sep) == |part|
  {
    if part != "" {
      assert (part + rest)[1..] == part[1..] + rest;
      PartEndIs(part[1..], rest, sep);
    }
  }

  /** Splitting undoes joining. */
  lemma {:induction false} SplitJoin(parts: seq<string>, sep: char)
    requires parts != [] && forall i :: 0 <= i < |parts| ==> Free(parts[i], sep)
    ensures Split(Join(parts, sep), sep) == parts
    decreases |parts|
  {
    if |parts| == 1 {
      PartEndIs(parts[0], "", sep);
      assert parts[0] + "" == parts[0];
      assert parts == [parts[0]];
    } else {
      var rest := Join(parts[1..], sep);
      PartEndIs(parts[0], [sep] + rest, sep);
      var all := parts[0] + [sep] + rest;
      assert all == parts[0] + ([sep] + rest);
      assert all[..|parts[0]|] == parts[0] && all[|parts[0]| + 1..] == rest;
      SplitJoin(parts[1..], sep);
    }
  }

  lemma SplitFirst(s: string, sep: char)
    ensures var n := PartEnd(s, sep);
            Split(s, sep) == if n == |s| then [s] else [s[..n]] + Split(s[n + 1..], sep)
  {
  }

  /** Joining undoes splitting. */
  lemma {:induction false} JoinSplit(s: string, sep: char)
    ensures Join(Split(s, sep), sep) == s
    decreases |s|
  {
    hide Join, Split;
    SplitFirst(s, sep);
    var n := PartEnd(s, sep);
    if n < |s| {
      JoinSplit(s[n + 1..], sep);
      JoinFirst(s[..n], Split(s[n + 1..], sep), sep);
      assert s == s[..n] + [sep] + s[n + 1..];
    } else {
      JoinOne(s, sep);
    }
  }

  lemma JoinOne(part: string, sep: char)
    ensures Join([part], sep) == part
  {
  }

  lemma JoinFirst(part: string, rest: seq<string>, sep: char)
    requires rest != []
    ensures Join([part] + rest, sep) == part + [sep] + Join(rest, sep)
  {
    assert ([part] + rest)[1..] == rest;
  }

  lemma {:induction false} JoinAppend(one: seq<string>, other: seq<string>, sep: char)
    requires one != [] && other != []
    ensures Join(one + other, sep) == Join(one, sep) + [sep] + Join(other, sep)
    decreases |one|
  {
    assert (one + other)[1..] == one[1..] + other;
    if |one| > 1 {
      JoinAppend(one[1..], other, sep);
    } else {
      assert one[1..] + other == other;
    }
  }

  // ------------------------------------------------------------------ strip

  /** `str.isspace` of one character. */
  predicate IsSpace(c: char) {
    || 9 <= c as int <= 13 || 28 <= c as int <= 32 || c as int == 0x85 || c as int == 0xA0 || c as int == 0x1680
    || 0x2000 <= c as int <= 0x200A || c as int == 0x2028 || c as int == 0x2029 || c as int == 0x202F
       || c as int == 0x205F
    || c as int == 0x3000
  }

  /** The characters `str.strip` takes away. */
  lemma SpacesAre(c: char)
    ensures IsSpace(c) <==>
              c as int in {0x09, 0x0A, 0x0B, 0x0C, 0x0D, 0x1C, 0x1D, 0x1E, 0x1F, 0x20, 0x85, 0xA0, 0x1680, 0x2000,
                           0x2001, 0x2002, 0x2003, 0x2004, 0x2005, 0x2006, 0x2007, 0x2008, 0x2009, 0x200A, 0x2028,
                           0x2029, 0x202F, 0x205F, 0x3000}
  {
  }

  function StripLeft(s: string): string {
    if s != "" && IsSpace(s[0]) then StripLeft(s[1..]) else s
  }

  function StripRight(s: string): string {
    if s != "" && IsSpace(s[|s| - 1]) then StripRight(s[..|s| - 1]) else s
  }

  /** `s.strip()`. */
  function Strip(s: string): string {
    StripRight(StripLeft(s))
  }

  predicate Trimmed(s: string) {
    s == "" || (!IsSpace(s[0]) && !IsSpace(s[|s| - 1]))
  }

  lemma {:induction false} StripLeftShape(s: string)
    ensures var t := StripLeft(s);
            && |t| <= |s| && t == s[|s| - |t|..] && (t != "" ==> !IsSpace(t[0]))
            && forall i :: 0 <= i < |s| - |t| ==> IsSpace(s[i])
  {
    hide IsSpace;
    if s != "" && IsSpace(s[0]) {
      StripLeftShape(s[1..]);
      var t := StripLeft(s);
      assert t == StripLeft(s[1..]);
      hide StripLeft;
      assert s[1..][|s| - 1 - |t|..] == s[|s| - |t|..];
      forall i | 0 <= i < |s| - |t| ensures IsSpace(s[i]) { if i > 0 { assert s[1..][i - 1] == s[i]; } }
    }
  }

  lemma {:induction false} StripRightShape(s: string)
    ensures var t := StripRight(s);
            && |t| <= |s| && t == s[..|t|] && (t != "" ==> !IsSpace(t[|t| - 1]))
            && forall i :: |t| <= i < |s| ==> IsSpace(s[i])
  {
    hide IsSpace;
    if s != "" && IsSpace(s[|s| - 1]) {
      StripRightShape(s[..|s| - 1]);
      var t := StripRight(s);
      assert t == StripRight(s[..|s| - 1]);
      hide StripRight;
      assert s[..|s| - 1][..|t|] == s[..|t|];
      forall i | |t| <= i < |s| ensures IsSpace(s[i]) { if i < |s| - 1 { assert s[..|s| - 1][i] == s[i]; } }
    }
  }

  lemma StripTrims(s: string)
    ensures Trimmed(Strip(s)) && (Strip(s) == s <==> Trimmed(s))
  {
    StripLeftShape(s);
    StripRightShape(StripLeft(s));
  }

  /** What stripping leaves keeps every non-space character in place. */
  lemma StripKeeps(s: string, p: nat) returns (lo: nat, hi: nat)
    requires p < |s| && !IsSpace(s[p])
    ensures lo <= p < hi <= |s| && Strip(s) == s[lo..hi] && forall i :: hi <= i < |s| ==> IsSpace(s[i])
  {
    var t := StripLeft(s);
    StripLeftShape(s);
    StripRightShape(t);
    lo := |s| - |t|;
    hi := lo + |Strip(s)|;
    assert p >= lo;
    assert t[p - lo] == s[p];
    assert s[lo..hi] == t[..hi - lo];
    forall i | hi <= i < |s| ensures IsSpace(s[i]) { assert t[i - lo] == s[i]; }
  }

  /** `s.lstrip("\n")`. */
  function DropNewlines(s: string): string {
    if s != "" && s[0] == NEWLINE then DropNewlines(s[1..]) else s
  }

  lemma {:induction false} DropNewlinesShape(s: string)
    ensures |DropNewlines(s)| <= |s| && (DropNewlines(s) == s <==> s == "" || s[0] != NEWLINE)
    ensures DropNewlines([NEWLINE] + s) == DropNewlines(s)
  {
    assert ([NEWLINE] + s)[1..] == s;
    if s != "" && s[0] == NEWLINE { DropNewlinesShape(s[1..]); }
  }

  // ------------------------------------------------------------------ search

  predicate SepAt(s: string, i: nat) {
    i + 1 < |s| && s[i] == ':' && s[i + 1] == ' '
  }

  /** The index of the first `": "`, or the length. */
  function FirstSep(s: string): (n: nat)
    ensures n <= |s| && (n < |s| ==> SepAt(s, n)) && forall i: nat :: i < n ==> !SepAt(s, i)
  {
    if s == "" || SepAt(s, 0) then 0
    else
      var n := 1 + FirstSep(s[1..]);
      assert forall i: nat :: 1 <= i ==> SepAt(s, i) == SepAt(s[1..], i - 1);
      n
  }

  /** `": " in s`. */
  predicate HasSep(s: string) {
    FirstSep(s) < |s|
  }

  lemma SepFound(s: string, i: nat)
    requires SepAt(s, i)
    ensures HasSep(s)
  {
  }

  predicate EndsWithColon(s: string) {
    s != "" && s[|s| - 1] == ':'
  }
}
