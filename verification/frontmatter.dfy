/** `frontmatter.py`: the line-scanning loops, proved against the format. */
module Frontmatter {
  import opened Symbols
  import opened FrontmatterText
  import opened FrontmatterSpec

  const CANONICAL_ORDER: seq<string> := ["id", "title", "tags", "folder_id", "content_hash", "created_at", "updated_at"]

  // ------------------------------------------------------------ key order

  function IndexIn(order: seq<string>, key: string): (n: nat)
    ensures n <= |order| && (n < |order| ==> order[n] == key) && key !in order[..n]
  {
    if order == [] || order[0] == key then 0 else 1 + IndexIn(order[1..], key)
  }

  /** Code point order of strings. */
  predicate AtMost(a: string, b: string) {
    a == "" || (b != "" && (a[0] < b[0] || (a[0] == b[0] && AtMost(a[1..], b[1..]))))
  }

  /** The canonical keys first, in their order; then all others by text. */
  predicate Before(a: string, b: string) {
    var i, j := IndexIn(CANONICAL_ORDER, a), IndexIn(CANONICAL_ORDER, b);
    i < j || (i == j && AtMost(a, b))
  }

  /** `a` ends where `b` goes on, or has the smaller character where they first differ. */
  ghost predicate TextAtMost(a: string, b: string) {
    exists n :: DiffersAt(a, b, n) && (n == |a| || (n < |b| && a[n] < b[n]))
  }

  predicate DiffersAt(a: string, b: string, n: int) {
    0 <= n <= |a| && n <= |b| && a[..n] == b[..n]
  }

  lemma {:induction false} AtMostIff(a: string, b: string)
    ensures AtMost(a, b) <==> TextAtMost(a, b)
  {
    if a == "" {
      assert DiffersAt(a, b, 0);
    } else if b != "" && a[0] == b[0] {
      AtMostIff(a[1..], b[1..]);
      assert a == [a[0]] + a[1..] && b == [b[0]] + b[1..];
      if TextAtMost(a[1..], b[1..]) {
        var n :| DiffersAt(a[1..], b[1..], n) && (n == |a[1..]| || (n < |b[1..]| && a[1..][n] < b[1..][n]));
        assert a[..n + 1] == [a[0]] + a[1..][..n] && b[..n + 1] == [b[0]] + b[1..][..n];
        assert DiffersAt(a, b, n + 1);
      }
      if TextAtMost(a, b) {
        var n :| DiffersAt(a, b, n) && (n == |a| || (n < |b| && a[n] < b[n]));
        assert n >= 1;
        assert a[1..][..n - 1] == a[..n][1..] && b[1..][..n - 1] == b[..n][1..];
        assert DiffersAt(a[1..], b[1..], n - 1);
      }
    } else {
      if b != "" && a[0] < b[0] { assert DiffersAt(a, b, 0); }
      if TextAtMost(a, b) {
        var n :| DiffersAt(a, b, n) && (n == |a| || (n < |b| && a[n] < b[n]));
        assert n >= 1 ==> a[..n][0] == b[..n][0];
      }
    }
  }

  function Rank(key: string): nat {
    match key
    case "id" => 0
    case "title" => 1
    case "tags" => 2
    case "folder_id" => 3
    case "content_hash" => 4
    case "created_at" => 5
    case "updated_at" => 6
    case _ => 7
  }

  /** The order of the keys: seven named ones first, then the text decides. */
  lemma BeforeIff(a: string, b: string)
    ensures Before(a, b) <==> Rank(a) < Rank(b) || (Rank(a) == Rank(b) && TextAtMost(a, b))
  {
    AtMostIff(a, b);
    RankIs(a);
    RankIs(b);
    hide IndexIn, Rank, AtMost;
  }

  lemma RankIs(key: string)
    ensures IndexIn(CANONICAL_ORDER, key) == Rank(key)
  {
    var n := IndexIn(CANONICAL_ORDER, key);
    hide IndexIn;
    var order := CANONICAL_ORDER;
    assert order[0] == "id" && order[1] == "title" && order[2] == "tags" && order[3] == "folder_id"
           && order[4] == "content_hash" && order[5] == "created_at" && order[6] == "updated_at" && |order| == 7;
    assert forall i :: 0 <= i < n ==> order[i] != key by {
      assert forall i :: 0 <= i < n ==> order[..n][i] == order[i];
    }
  }

  predicate InOrder(keys: seq<string>) {
    forall i, j :: 0 <= i < j < |keys| ==> Before(keys[i], keys[j])
  }

  lemma {:induction false} Total(a: string, b: string)
    ensures AtMost(a, b) || AtMost(b, a)
  {
    if a != "" && b != "" { Total(a[1..], b[1..]); }
  }

  lemma {:induction false} Transitive(a: string, b: string, c: string)
    requires AtMost(a, b) && AtMost(b, c)
    ensures AtMost(a, c)
  {
    if a != "" && a[0] == b[0] == c[0] { Transitive(a[1..], b[1..], c[1..]); }
  }

  lemma BeforeIsOrder(a: string, b: string, c: string)
    ensures Before(a, b) || Before(b, a)
    ensures Before(a, b) && Before(b, c) ==> Before(a, c)
  {
    Total(a, b);
    if AtMost(a, b) && AtMost(b, c) { Transitive(a, b, c); }
    hide IndexIn, AtMost;
  }

  /** `sorted(meta, key=...)`. */
  method SortKeys(keys: seq<string>) returns (sorted: seq<string>)
    ensures multiset(sorted) == multiset(keys) && InOrder(sorted)
  {
    hide Before;
    sorted := [];
    for i := 0 to |keys|
      invariant multiset(sorted) == multiset(keys[..i]) && InOrder(sorted)
    {
      var key := keys[i];
      var at := 0;
      while at < |sorted| && Before(sorted[at], key)
        invariant 0 <= at <= |sorted| && forall j :: 0 <= j < at ==> Before(sorted[j], key)
      {
        at := at + 1;
      }
      Inserted(sorted, at, key);
      assert keys[..i + 1] == keys[..i] + [key];
      sorted := sorted[..at] + [key] + sorted[at..];
    }
    assert keys[..|keys|] == keys;
  }

  lemma Inserted(sorted: seq<string>, at: nat, key: string)
    requires InOrder(sorted) && at <= |sorted| && forall j :: 0 <= j < at ==> Before(sorted[j], key)
    requires at < |sorted| ==> !Before(sorted[at], key)
    ensures InOrder(sorted[..at] + [key] + sorted[at..])
    ensures multiset(sorted[..at] + [key] + sorted[at..]) == multiset(sorted) + multiset{key}
  {
    hide Before;
    forall j | at <= j < |sorted| ensures Before(key, sorted[j]) {
      BeforeIsOrder(sorted[at], key, key);
      if j > at { BeforeIsOrder(key, sorted[at], sorted[j]); }
    }
    assert sorted == sorted[..at] + sorted[at..];
  }

  lemma SortedListing(keys: seq<string>, sorted: seq<string>, meta: Meta)
    requires Lists(keys, meta) && multiset(sorted) == multiset(keys)
    ensures Lists(sorted, meta)
  {
    forall i | 0 <= i < |sorted| ensures sorted[i] in meta { assert sorted[i] in multiset(keys); }
    forall k | k in meta ensures k in sorted { assert k in multiset(sorted); }
    forall i, j | 0 <= i < j < |sorted| ensures sorted[i] != sorted[j] {
      if sorted[i] == sorted[j] { TwiceMeansTwice(sorted, i, j); OnceEach(keys, sorted[i]); }
    }
  }

  lemma TwiceMeansTwice(s: seq<string>, i: nat, j: nat)
    requires i < j < |s| && s[i] == s[j]
    ensures multiset(s)[s[i]] >= 2
  {
    assert s == s[..j] + [s[j]] + s[j + 1..];
    assert s[i] in s[..j];
  }

  lemma {:induction false} OnceEach(s: seq<string>, x: string)
    requires forall i, j :: 0 <= i < j < |s| ==> s[i] != s[j]
    ensures multiset(s)[x] <= 1
    decreases |s|
  {
    if s != [] {
      var n := |s| - 1;
      OnceEach(s[..n], x);
      assert s == s[..n] + [s[n]];
      assert x == s[n] ==> x !in s[..n];
    }
  }

  // -------------------------------------------------------------- the codec

  /** `keys` is the metadata's key set in printing order. */
  ghost predicate PrintOrder(keys: seq<string>, meta: Meta) {
    Lists(keys, meta) && InOrder(keys)
  }

  /** `serialize_frontmatter`; `inserted` is the dict's own key order, which
      the result does not depend on. */
  method SerializeFrontmatter(meta: Meta, inserted: seq<string>) returns (text: string)
    requires Lists(inserted, meta)
    ensures exists keys :: PrintOrder(keys, meta) && text == Serialize(meta, keys)
  {
    hide InOrder, Render;
    var sorted := SortKeys(inserted);
    SortedListing(inserted, sorted, meta);
    var lines := [DELIMITER];
    for i := 0 to |sorted|
      invariant lines == [DELIMITER] + EntryLines(meta, sorted)[..i]
    {
      var key := sorted[i];
      match meta[key] {
        case Absent => lines := lines + [key + ": null"];
        case Items(items) =>
          if items == [] {
            lines := lines + [key + ": []"];
          } else {
            lines := lines + [key + ": [" + JoinItems(items) + "]"];
          }
        case Flag(on) => lines := lines + [key + ": " + (if on then "true" else "false")];
        case Scalar(value) => lines := lines + [key + ": " + ReplaceNewlines(value)];
      }
      LineOf(meta, sorted, i, lines[|lines| - 1]);
    }
    assert EntryLines(meta, sorted)[..|sorted|] == EntryLines(meta, sorted);
    lines := lines + [DELIMITER];
    text := Join(lines, NEWLINE) + [NEWLINE];
    assert PrintOrder(sorted, meta) && text == Serialize(meta, sorted);
  }

  /** The last line printed is the entry's. */
  lemma LineOf(meta: Meta, keys: seq<string>, i: nat, line: string)
    requires Lists(keys, meta) && i < |keys|
    requires line == match meta[keys[i]]
                     case Absent => keys[i] + ": null"
                     case Items(items) => if items == [] then keys[i] + ": []"
                                          else keys[i] + ": [" + JoinItems(items) + "]"
                     case Flag(on) => keys[i] + ": " + (if on then "true" else "false")
                     case Scalar(value) => keys[i] + ": " + ReplaceNewlines(value)
    ensures EntryLines(meta, keys)[..i + 1] == EntryLines(meta, keys)[..i] + [line]
  {
    hide ReplaceNewlines, JoinItems, EntryLine, Render;
    Printed(keys[i], meta[keys[i]], line);
    OneLineMore(EntryLines(meta, keys), i, line);
  }

  lemma OneLineMore(lines: seq<string>, i: nat, line: string)
    requires i < |lines| && lines[i] == line
    ensures lines[..i + 1] == lines[..i] + [line]
  {
  }

  lemma Printed(key: string, value: Value, line: string)
    requires line == match value
                     case Absent => key + ": null"
                     case Items(items) => if items == [] then key + ": []" else key + ": [" + JoinItems(items) + "]"
                     case Flag(on) => key + ": " + (if on then "true" else "false")
                     case Scalar(text) => key + ": " + ReplaceNewlines(text)
    ensures line == EntryLine(key, value)
  {
    hide ReplaceNewlines, JoinItems;
    match value {
      case Absent => assert ": null" == ": " + "null";
      case Items(items) =>
        if items == [] {
          assert ": []" == ": " + "[]";
        } else {
          assert ": [" == ": " + "[";
          assert line == key + ": " + ("[" + JoinItems(items) + "]");
        }
      case Flag(on) =>
      case Scalar(text) =>
    }
  }

  /** The printing order of a key set is unique, so the printed text is a
      function of the metadata alone. */
  lemma OnePrintOrder(one: seq<string>, other: seq<string>, meta: Meta)
    requires PrintOrder(one, meta) && PrintOrder(other, meta)
    ensures one == other
  {
    hide InOrder;
    forall k ensures multiset(one)[k] == multiset(other)[k] {
      OnceEach(one, k);
      OnceEach(other, k);
      assert (k in one <==> k in meta) && (k in other <==> k in meta);
      assert (k in multiset(one) <==> k in one) && (k in multiset(other) <==> k in other);
    }
    OneOrder(one, other);
  }

  /** Two sorted listings of the same strings are equal. */
  lemma {:induction false} OneOrder(one: seq<string>, other: seq<string>)
    requires multiset(one) == multiset(other) && InOrder(one) && InOrder(other)
    ensures one == other
    decreases |one|
  {
    hide InOrder;
    if one == [] {
      assert |multiset(other)| == 0;
    } else {
      assert |multiset(one)| == |one| && |multiset(other)| == |other|;
      assert one[0] in multiset(other) && other[0] in multiset(one);
      FirstsAgree(one, other);
      RestInOrder(one);
      RestInOrder(other);
      assert one == [one[0]] + one[1..] && other == [other[0]] + other[1..];
      assert multiset(one[1..]) == multiset(one) - multiset{one[0]};
      assert multiset(other[1..]) == multiset(other) - multiset{other[0]};
      OneOrder(one[1..], other[1..]);
    }
  }

  lemma RestInOrder(keys: seq<string>)
    requires keys != [] && InOrder(keys)
    ensures InOrder(keys[1..])
  {
    hide Before;
  }

  lemma FirstsAgree(one: seq<string>, other: seq<string>)
    requires one != [] && other != [] && InOrder(one) && InOrder(other) && one[0] in other && other[0] in one
    ensures one[0] == other[0]
  {
    hide Before;
    if one[0] != other[0] {
      var i :| 0 < i < |other| && other[i] == one[0];
      var j :| 0 < j < |one| && one[j] == other[0];
      Antisymmetric(one[0], other[0]);
    }
  }

  lemma Antisymmetric(a: string, b: string)
    requires Before(a, b) && Before(b, a)
    ensures a == b
  {
    SameText(a, b);
  }

  lemma {:induction false} SameText(a: string, b: string)
    requires AtMost(a, b) && AtMost(b, a)
    ensures a == b
  {
    if a != "" && b != "" {
      SameText(a[1..], b[1..]);
      assert a == [a[0]] + a[1..] && b == [b[0]] + b[1..];
    }
  }

  /** `has_frontmatter`. */
  method CheckFrontmatter(content: string) returns (found: bool)
    ensures found <==> HasFrontmatter(content)
  {
    hide IsMapping, Strip;
    var lines := Split(content, NEWLINE);
    if content == "" {
      assert lines == [""];
      EmptyIsNoDelimiter();
      return false;
    }
    if Strip(lines[0]) != DELIMITER { return false; }
    var hasMapping := false;
    for i := 1 to |lines|
      invariant Closing(lines, 1) == Closing(lines, i)
      invariant hasMapping <==> exists j :: 1 <= j < i && IsMapping(lines[j])
      invariant forall j :: 1 <= j < i ==> !Closes(lines[j])
    {
      if Strip(lines[i]) == DELIMITER {
        return hasMapping;
      }
      if IsMapping(lines[i]) { hasMapping := true; }
    }
    found := false;
  }

  lemma EmptyIsNoDelimiter()
    ensures Strip("") != DELIMITER
  {
  }

  /** `strip_frontmatter`. */
  method Stripped(content: string) returns (body: string)
    ensures body == StripFrontmatter(content)
  {
    hide IsMapping, Strip;
    var found := CheckFrontmatter(content);
    if !found { return content; }
    var lines := Split(content, NEWLINE);
    for i := 1 to |lines|
      invariant Closing(lines, 1) == Closing(lines, i)
    {
      if Strip(lines[i]) == DELIMITER {
        return DropNewlines(Join(lines[i + 1..], NEWLINE));
      }
    }
    body := content;
  }

  /** `wrap_with_frontmatter`. */
  method WrapWithFrontmatter(meta: Meta, inserted: seq<string>, content: string) returns (text: string)
    requires Lists(inserted, meta)
    ensures exists keys :: PrintOrder(keys, meta) && text == Wrap(meta, keys, content)
  {
    hide Serialize, InOrder, StripFrontmatter;
    var block := SerializeFrontmatter(meta, inserted);
    var body := Stripped(content);
    text := block + [NEWLINE] + body;
    ghost var keys :| PrintOrder(keys, meta) && block == Serialize(meta, keys);
    assert text == Wrap(meta, keys, content);
  }

  /** `extract_frontmatter`. */
  method ExtractFrontmatter(content: string) returns (meta: Option<Meta>, body: string)
    ensures (meta, body) == Extract(content)
  {
    hide IsMapping, Strip, ParseLine;
    var found := CheckFrontmatter(content);
    if !found { return None, content; }
    var lines := Split(content, NEWLINE);
    var read: Meta := map[];
    for i := 1 to |lines|
      invariant Closing(lines, 1) == Closing(lines, i) && read == ParseLines(lines[1..i])
    {
      if Strip(lines[i]) == DELIMITER {
        return Some(read), DropNewlines(Join(lines[i + 1..], NEWLINE));
      }
      read := ParseLine(read, lines[i]);
      assert lines[1..i + 1] == lines[1..i] + [lines[i]];
    }
    meta, body := None, content;
  }
}
