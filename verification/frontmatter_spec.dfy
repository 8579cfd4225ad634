/** The frontmatter format, function by function, and its round trips. */
module FrontmatterSpec {
  import opened Symbols
  import opened FrontmatterText

  /** A metadata value; scalars and list items are already strings. */
  datatype Value = Absent | Flag(on: bool) | Items(items: seq<string>) | Scalar(text: string)

  type Meta = map<string, Value>

  const DELIMITER: string := "---"

  // ---------------------------------------------------------------- printing

  function ReplaceNewlines(s: string): (r: string)
    ensures |r| == |s| && forall i :: 0 <= i < |s| ==> r[i] == if s[i] == NEWLINE then ' ' else s[i]
  {
    seq(|s|, i requires 0 <= i < |s| => if s[i] == NEWLINE then ' ' else s[i])
  }

  /** `", ".join(items)`. */
  function JoinItems(items: seq<string>): string {
    if items == [] then "" else if |items| == 1 then items[0] else items[0] + ", " + JoinItems(items[1..])
  }

  function Render(value: Value): string {
    match value
    case Absent => "null"
    case Items(items) => if items == [] then "[]" else "[" + JoinItems(items) + "]"
    case Flag(on) => if on then "true" else "false"
    case Scalar(text) => ReplaceNewlines(text)
  }

  function EntryLine(key: string, value: Value): string {
    key + ": " + Render(value)
  }

  function EntryLines(meta: Meta, keys: seq<string>): (lines: seq<string>)
    requires forall i :: 0 <= i < |keys| ==> keys[i] in meta
    ensures |lines| == |keys| && forall i :: 0 <= i < |keys| ==> lines[i] == EntryLine(keys[i], meta[keys[i]])
  {
    seq(|keys|, i requires 0 <= i < |keys| => EntryLine(keys[i], meta[keys[i]]))
  }

  /** The block, given the keys in printing order. */
  function Serialize(meta: Meta, keys: seq<string>): string
    requires forall i :: 0 <= i < |keys| ==> keys[i] in meta
  {
    Join([DELIMITER] + EntryLines(meta, keys) + [DELIMITER], NEWLINE) + [NEWLINE]
  }

  /** The printed forms. */
  lemma FormsAre(key: string, text: string, item: string, other: string, more: seq<string>)
    ensures EntryLine(key, Absent) == key + ": null"
    ensures EntryLine(key, Flag(true)) == key + ": true" && EntryLine(key, Flag(false)) == key + ": false"
    ensures EntryLine(key, Items([])) == key + ": []" && EntryLine(key, Items([item])) == key + ": [" + item + "]"
    ensures JoinItems([item, other] + more) == item + ", " + JoinItems([other] + more)
    ensures EntryLine(key, Items([item, other] + more)) == key + ": [" + JoinItems([item, other] + more) + "]"
    ensures EntryLine(key, Scalar(text)) == key + ": " + ReplaceNewlines(text)
    ensures Serialize(map[key := Absent], [key]) == "---\n" + key + ": null\n---\n"
  {
    hide ReplaceNewlines;
    assert ": null" == ": " + "null" && ": true" == ": " + "true" && ": false" == ": " + "false"
           && ": []" == ": " + "[]" && ": [" == ": " + "[";
    assert ([item, other] + more)[1..] == [other] + more;
    assert key + ": [" + item + "]" == key + ": " + ("[" + item + "]");
    var joined := JoinItems([item, other] + more);
    assert key + ": [" + joined + "]" == key + ": " + ("[" + joined + "]");
    OneEntry(key);
  }

  lemma OneEntry(key: string)
    ensures Serialize(map[key := Absent], [key]) == "---\n" + key + ": null\n---\n"
  {
    var meta: Meta := map[key := Absent];
    var line := EntryLine(key, Absent);
    assert line == key + ": null" by { assert ": null" == ": " + "null"; }
    assert [DELIMITER] + EntryLines(meta, [key]) + [DELIMITER] == [DELIMITER] + ([line] + [DELIMITER]);
    hide Join, EntryLine, EntryLines;
    JoinFirst(DELIMITER, [line] + [DELIMITER], NEWLINE);
    JoinFirst(line, [DELIMITER], NEWLINE);
    JoinOne(DELIMITER, NEWLINE);
    assert DELIMITER == "---" && "---" + [NEWLINE] == "---\n" && "\n---\n" == [NEWLINE] + "---\n";
    assert DELIMITER + [NEWLINE] + (line + [NEWLINE] + DELIMITER) + [NEWLINE] ==
           (DELIMITER + [NEWLINE]) + line + ([NEWLINE] + (DELIMITER + [NEWLINE]));
    assert key + ": null\n---\n" == (key + ": null") + "\n---\n";
  }

  // ----------------------------------------------------------------- reading

  predicate Closes(line: string) {
    Strip(line) == DELIMITER
  }

  /** The first closing delimiter at or after line `i`, or the number of lines. */
  function Closing(lines: seq<string>, i: nat): (c: nat)
    requires i <= |lines|
    ensures i <= c <= |lines| && (c < |lines| ==> Closes(lines[c])) && forall j :: i <= j < c ==> !Closes(lines[j])
    decreases |lines| - i
  {
    if i == |lines| || Closes(lines[i]) then i else Closing(lines, i + 1)
  }

  predicate IsMapping(line: string) {
    HasSep(Strip(line)) || EndsWithColon(Strip(line))
  }

  /** `has_frontmatter`, on lines. */
  predicate HasBlock(lines: seq<string>)
    requires lines != []
  {
    && Closes(lines[0]) && Closing(lines, 1) < |lines|
    && exists i :: 1 <= i < Closing(lines, 1) && IsMapping(lines[i])
  }

  predicate HasFrontmatter(content: string) {
    HasBlock(Split(content, NEWLINE))
  }

  function BodyAfter(lines: seq<string>, closing: nat): string
    requires closing < |lines|
  {
    DropNewlines(Join(lines[closing + 1..], NEWLINE))
  }

  /** `strip_frontmatter`. */
  function StripFrontmatter(content: string): string {
    var lines := Split(content, NEWLINE);
    if HasBlock(lines) then BodyAfter(lines, Closing(lines, 1)) else content
  }

  /** `wrap_with_frontmatter`. */
  function Wrap(meta: Meta, keys: seq<string>, content: string): string
    requires forall i :: 0 <= i < |keys| ==> keys[i] in meta
  {
    Serialize(meta, keys) + [NEWLINE] + StripFrontmatter(content)
  }

  /** The comprehension over the parts of an inline list. */
  function TrimmedItems(parts: seq<string>): (items: seq<string>)
    ensures forall i :: 0 <= i < |items| ==> items[i] != "" && Trimmed(items[i])
    ensures (forall i :: 0 <= i < |parts| ==> Free(parts[i], ',')) ==>
              forall i :: 0 <= i < |items| ==> Free(items[i], ',')
  {
    if parts == [] then []
    else
      var item := Strip(parts[0]);
      StripTrims(parts[0]);
      StripIsPart(parts[0], ',');
      if item == "" then TrimmedItems(parts[1..]) else [item] + TrimmedItems(parts[1..])
  }

  lemma StripIsPart(s: string, sep: char)
    ensures Free(s, sep) ==> Free(Strip(s), sep)
  {
    StripLeftShape(s);
    StripRightShape(StripLeft(s));
  }

  /** `_parse_yaml_value`. */
  function ParseValue(raw: string): Value {
    var s := Strip(raw);
    if s == "null" then Absent
    else if s == "true" then Flag(true)
    else if s == "false" then Flag(false)
    else if s == "[]" then Items([])
    else if |s| >= 2 && s[0] == '[' && s[|s| - 1] == ']' then Items(TrimmedItems(Split(s[1..|s| - 1], ',')))
    else Scalar(s)
  }

  /** What a value reads as, once the spaces around it are gone. */
  lemma ValueReads(raw: string)
    ensures var s, value := Strip(raw), ParseValue(raw);
            && (value == Absent <==> s == "null")
            && (value == Flag(true) <==> s == "true") && (value == Flag(false) <==> s == "false")
            && (value.Items? <==> |s| >= 2 && s[0] == '[' && s[|s| - 1] == ']')
            && (value.Items? ==> value.items == TrimmedItems(Split(s[1..|s| - 1], ',')))
            && (value.Scalar? ==> value.text == s)
  {
    hide Strip, Split;
    var s := Strip(raw);
    if s == "[]" {
      assert s[1..|s| - 1] == "";
      assert Split("", ',') == [""] by { SplitFirst("", ','); }
      StripNothing();
      assert [""][1..] == [];
    }
  }

  lemma StripNothing()
    ensures Strip("") == ""
  {
  }

  /** The items of a list are its parts without the spaces around them, in
      order, and without the empty ones. */
  lemma ItemsAre(part: string, parts: seq<string>)
    ensures TrimmedItems([]) == []
    ensures TrimmedItems([part] + parts) == (if Strip(part) == "" then [] else [Strip(part)]) + TrimmedItems(parts)
  {
    hide Strip;
    assert ([part] + parts)[1..] == parts;
  }

  /** One line of `extract_frontmatter`. */
  function ParseLine(meta: Meta, line: string): Meta {
    if HasSep(line) then meta[line[..FirstSep(line)] := ParseValue(line[FirstSep(line) + 2..])]
    else if EndsWithColon(line) then meta[line[..|line| - 1] := Absent]
    else meta
  }

  predicate ColonSpaceAt(line: string, i: int) {
    0 <= i < |line| - 1 && line[i] == ':' && line[i + 1] == ' '
  }

  /** What a line of the block sets: the text before the first colon and space
      to the value after it; without such a pair, the text before a final colon
      to null; otherwise nothing. */
  lemma LineReads(meta: Meta, line: string, key: string, raw: string)
    ensures line == key + ": " + raw && (forall i :: i < |key| ==> !ColonSpaceAt(line, i)) ==>
              ParseLine(meta, line) == meta[key := ParseValue(raw)]
    ensures line == key + ":" && (forall i :: !ColonSpaceAt(line, i)) ==>
              ParseLine(meta, line) == meta[key := Absent]
    ensures (forall i :: !ColonSpaceAt(line, i)) && (line == "" || line[|line| - 1] != ':') ==>
              ParseLine(meta, line) == meta
  {
    hide ParseValue;
    forall i ensures ColonSpaceAt(line, i) <==> 0 <= i && SepAt(line, i) {}
    if line == key + ": " + raw {
      assert ColonSpaceAt(line, |key|);
      assert line[..|key|] == key && line[|key| + 2..] == raw;
    }
    if line == key + ":" { assert line[..|line| - 1] == key; }
  }

  function ParseLines(lines: seq<string>): Meta {
    if lines == [] then map[] else ParseLine(ParseLines(lines[..|lines| - 1]), lines[|lines| - 1])
  }

  /** `extract_frontmatter`. */
  function Extract(content: string): (Option<Meta>, string) {
    var lines := Split(content, NEWLINE);
    if HasBlock(lines) then (Some(ParseLines(lines[1..Closing(lines, 1)])), BodyAfter(lines, Closing(lines, 1)))
    else (None, content)
  }

  // ------------------------------------------------------------- clean values

  predicate CleanItem(item: string) {
    item != "" && Trimmed(item) && Free(item, ',')
  }

  predicate Reserved(text: string) {
    text == "null" || text == "true" || text == "false" || text == "[]"
    || (|text| >= 2 && text[0] == '[' && text[|text| - 1] == ']')
  }

  /** A value that a reader can get back from its printed form. */
  predicate CleanValue(value: Value) {
    match value
    case Scalar(text) => Trimmed(text) && Free(text, NEWLINE) && !Reserved(text)
    case Items(items) => forall i :: 0 <= i < |items| ==> CleanItem(items[i])
    case _ => true
  }

  /** The parts between the commas of a printed list. */
  function Parts(items: seq<string>): (parts: seq<string>)
    ensures |parts| == |items|
    ensures forall i :: 0 <= i < |items| ==> parts[i] == if i == 0 then items[0] else " " + items[i]
  {
    seq(|items|, i requires 0 <= i < |items| => if i == 0 then items[0] else " " + items[i])
  }

  lemma JoinItemsFirst(first: string, rest: seq<string>)
    ensures JoinItems([first] + rest) == if rest == [] then first else first + ", " + JoinItems(rest)
  {
    assert ([first] + rest)[1..] == rest;
  }

  lemma PartsFirst(first: string, rest: seq<string>)
    ensures Parts([first] + rest) ==
              if rest == [] then [first] else [first] + ([" " + rest[0]] + Parts(rest)[1..])
  {
  }

  lemma {:induction false} JoinedItems(items: seq<string>)
    requires items != []
    ensures Join(Parts(items), ',') == JoinItems(items)
    decreases |items|
  {
    hide Join, JoinItems, Parts;
    var first, rest := items[0], items[1..];
    assert items == [first] + rest;
    JoinItemsFirst(first, rest);
    PartsFirst(first, rest);
    if rest == [] {
      JoinOne(first, ',');
    } else {
      JoinedItems(rest);
      JoinPrefix(" ", Parts(rest));
      JoinFirst(first, [" " + rest[0]] + Parts(rest)[1..], ',');
      PrefixedComma(first, JoinItems(rest));
    }
  }

  lemma PrefixedComma(first: string, rest: string)
    ensures first + [','] + (" " + rest) == first + ", " + rest
  {
    assert [','] + " " == ", ";
  }

  lemma JoinPrefix(prefix: string, parts: seq<string>)
    requires parts != []
    ensures Join([prefix + parts[0]] + parts[1..], ',') == prefix + Join(parts, ',')
  {
    var all := [prefix + parts[0]] + parts[1..];
    assert all[1..] == parts[1..];
  }

  lemma {:induction false} TrimsBack(parts: seq<string>, items: seq<string>)
    requires |parts| == |items| && forall i :: 0 <= i < |items| ==> CleanItem(items[i]) && Strip(parts[i]) == items[i]
    ensures TrimmedItems(parts) == items
    decreases |parts|
  {
    if parts != [] {
      TrimsBack(parts[1..], items[1..]);
      assert items == [items[0]] + items[1..];
    }
  }

  lemma StripSpace(item: string)
    requires item != "" && Trimmed(item)
    ensures Strip(" " + item) == item && Strip(item) == item
  {
    StripTrims(item);
    var padded := " " + item;
    assert padded[1..] == item;
    assert StripLeft(padded) == StripLeft(item) == item by { StripLeftShape(item); }
  }

  /** A printed list of clean items reads back as itself. */
  lemma ListReads(items: seq<string>)
    requires items != [] && forall i :: 0 <= i < |items| ==> CleanItem(items[i])
    ensures ParseValue(Render(Items(items))) == Items(items)
  {
    var inner := JoinItems(items);
    var s := "[" + inner + "]";
    StripTrims(s);
    assert s[1..|s| - 1] == inner;
    JoinedItems(items);
    var parts := Parts(items);
    forall i | 0 <= i < |items| ensures Strip(parts[i]) == items[i] && Free(parts[i], ',') { StripSpace(items[i]); }
    SplitJoin(parts, ',');
    TrimsBack(parts, items);
    NotEmptyList(items);
  }

  lemma NotEmptyList(items: seq<string>)
    requires items != [] && items[0] != ""
    ensures var s := "[" + JoinItems(items) + "]"; s != "[]" && s != "null" && s != "true" && s != "false"
  {
    var s := "[" + JoinItems(items) + "]";
    assert |JoinItems(items)| >= 1;
    assert |s| >= 3 && s[0] == '[';
  }

  /** A value reads back from its printed form exactly when it is clean. */
  lemma ReadsBackIff(value: Value)
    ensures ParseValue(Render(value)) == value <==> CleanValue(value)
  {
    match value
    case Absent => StripTrims("null");
    case Flag(on) => StripTrims("true"); StripTrims("false");
    case Items(items) =>
      if items == [] {
        StripTrims("[]");
      } else if CleanValue(value) {
        ListReads(items);
      } else {
        ItemsAreClean(Render(value));
      }
    case Scalar(text) => ScalarReadsIff(text);
  }

  /** Whatever the reader takes for a list has clean items. */
  lemma ItemsAreClean(raw: string)
    ensures ParseValue(raw).Items? ==> CleanValue(ParseValue(raw))
  {
  }

  lemma ScalarReadsIff(text: string)
    ensures ParseValue(Render(Scalar(text))) == Scalar(text) <==> CleanValue(Scalar(text))
  {
    var printed := ReplaceNewlines(text);
    StripTrims(printed);
    if Free(text, NEWLINE) {
      assert printed == text;
    } else {
      var i :| 0 <= i < |text| && text[i] == NEWLINE;
      assert printed[i] != text[i];
      StripNoLonger(printed);
    }
  }

  lemma StripNoLonger(s: string)
    ensures |Strip(s)| <= |s| && (|Strip(s)| == |s| ==> Strip(s) == s)
  {
    StripLeftShape(s);
    StripRightShape(StripLeft(s));
  }

  // ------------------------------------------------------------ printed lines

  /** Nothing that is printed unescaped holds a newline. */
  predicate NewlineSafe(meta: Meta) {
    forall k :: k in meta ==>
      Free(k, NEWLINE) && (meta[k].Items? ==> forall i :: 0 <= i < |meta[k].items| ==> Free(meta[k].items[i], NEWLINE))
  }

  predicate Lists(keys: seq<string>, meta: Meta) {
    && (forall i :: 0 <= i < |keys| ==> keys[i] in meta)
    && (forall k :: k in meta ==> k in keys)
    && (forall i, j :: 0 <= i < j < |keys| ==> keys[i] != keys[j])
  }

  lemma {:induction false} ItemsLineFree(items: seq<string>)
    requires forall i :: 0 <= i < |items| ==> Free(items[i], NEWLINE)
    ensures Free(JoinItems(items), NEWLINE)
    decreases |items|
  {
    if |items| > 1 { ItemsLineFree(items[1..]); }
  }

  lemma EntryIsOneLine(key: string, value: Value)
    requires Free(key, NEWLINE)
             && (value.Items? ==> forall i :: 0 <= i < |value.items| ==> Free(value.items[i], NEWLINE))
    ensures Free(EntryLine(key, value), NEWLINE)
  {
    if value.Items? { ItemsLineFree(value.items); }
  }

  /** An entry is a mapping line, and never the closing delimiter. */
  lemma EntryIsMapping(key: string, value: Value)
    ensures IsMapping(EntryLine(key, value)) && !Closes(EntryLine(key, value)) && HasSep(EntryLine(key, value))
  {
    var line, p := EntryLine(key, value), |key|;
    assert SepAt(line, p);
    SepFound(line, p);
    var lo, hi := StripKeeps(line, p);
    var s := Strip(line);
    assert s[p - lo] == ':';
    if hi > p + 1 {
      assert SepAt(s, p - lo);
      SepFound(s, p - lo);
    }
  }

  /** What the reader takes for the key of an entry. */
  lemma EntryKey(key: string, value: Value)
    ensures var line := EntryLine(key, value);
            && !HasSep(line[..FirstSep(line)])
            && (!HasSep(key) ==> FirstSep(line) == |key|)
  {
    var line := EntryLine(key, value);
    var n := FirstSep(line);
    assert SepAt(line, |key|);
    assert forall i: nat :: SepAt(line[..n], i) ==> SepAt(line, i) && i < n;
    assert forall i: nat :: i < |key| && SepAt(line, i) ==> SepAt(key, i);
  }

  lemma EntryParses(meta: Meta, key: string, value: Value)
    requires !HasSep(key)
    ensures ParseLine(meta, EntryLine(key, value)) == meta[key := ParseValue(Render(value))]
  {
    hide ParseValue, Render, FirstSep, HasSep, EntryLine;
    EntryKey(key, value);
    EntryIsMapping(key, value);
    EntryParts(key, value);
  }

  lemma EntryParts(key: string, value: Value)
    ensures var line := EntryLine(key, value);
            |line| >= |key| + 2 && line[..|key|] == key && line[|key| + 2..] == Render(value)
  {
    hide Render;
  }

  lemma {:induction false} EntriesParse(meta: Meta, keys: seq<string>)
    requires forall i :: 0 <= i < |keys| ==> keys[i] in meta && !HasSep(keys[i])
    ensures forall k :: k in ParseLines(EntryLines(meta, keys)) <==> k in keys
    ensures forall k :: k in keys ==> ParseLines(EntryLines(meta, keys))[k] == ParseValue(Render(meta[k]))
    decreases |keys|
  {
    hide ParseValue, Render, ParseLine, HasSep, EntryLine;
    if keys != [] {
      var n := |keys| - 1;
      EntriesParse(meta, keys[..n]);
      assert EntryLines(meta, keys)[..n] == EntryLines(meta, keys[..n]);
      EntryParses(ParseLines(EntryLines(meta, keys[..n])), keys[n], meta[keys[n]]);
      assert keys == keys[..n] + [keys[n]];
    }
  }

  /** No key the reader finds among printed entries contains a separator. */
  lemma {:induction false} ParsedKeysAreFree(meta: Meta, keys: seq<string>)
    requires forall i :: 0 <= i < |keys| ==> keys[i] in meta
    ensures forall k :: k in ParseLines(EntryLines(meta, keys)) ==> !HasSep(k)
    decreases |keys|
  {
    if keys != [] {
      var n := |keys| - 1;
      ParsedKeysAreFree(meta, keys[..n]);
      assert EntryLines(meta, keys)[..n] == EntryLines(meta, keys[..n]);
      EntryKey(keys[n], meta[keys[n]]);
      EntryIsMapping(keys[n], meta[keys[n]]);
    }
  }

  predicate CleanEntry(key: string, value: Value) {
    !HasSep(key) && CleanValue(value)
  }

  predicate Clean(meta: Meta) {
    forall k :: k in meta ==> CleanEntry(k, meta[k])
  }

  lemma ParsesBackIff(meta: Meta, keys: seq<string>)
    requires Lists(keys, meta)
    ensures ParseLines(EntryLines(meta, keys)) == meta <==> Clean(meta)
  {
    hide CleanValue, ParseValue, Render, HasSep, ParseLine, ParseLines, EntryLine;
    ParsedKeysAreFree(meta, keys);
    forall k | k in meta ensures ParseValue(Render(meta[k])) == meta[k] <==> CleanValue(meta[k]) {
      ReadsBackIff(meta[k]);
    }
    if forall i :: 0 <= i < |keys| ==> !HasSep(keys[i]) {
      EntriesParse(meta, keys);
      if !Clean(meta) {
        var k :| k in meta && !CleanEntry(k, meta[k]);
        assert k in keys;
      }
    }
  }

  // ----------------------------------------------------------- whole contents

  lemma WrapLines(meta: Meta, keys: seq<string>, content: string)
    requires Lists(keys, meta) && NewlineSafe(meta)
    ensures Split(Wrap(meta, keys, content), NEWLINE)
            == [DELIMITER] + EntryLines(meta, keys) + [DELIMITER] + [""] + Split(StripFrontmatter(content), NEWLINE)
  {
    hide StripFrontmatter, EntryLine, Join, Split;
    var body := StripFrontmatter(content);
    var block := [DELIMITER] + EntryLines(meta, keys) + [DELIMITER];
    BlockIsLines(meta, keys);
    BlockThenBody(block, body);
    assert Wrap(meta, keys, content) == Join(block, NEWLINE) + [NEWLINE] + [NEWLINE] + body;
  }

  lemma BlockThenBody(block: seq<string>, body: string)
    requires block != [] && forall i :: 0 <= i < |block| ==> Free(block[i], NEWLINE)
    ensures Split(Join(block, NEWLINE) + [NEWLINE] + [NEWLINE] + body, NEWLINE) == block + [""] + Split(body, NEWLINE)
  {
    hide Join, Split;
    var rest := [""] + Split(body, NEWLINE);
    JoinSplit(body, NEWLINE);
    JoinFirst("", Split(body, NEWLINE), NEWLINE);
    JoinAppend(block, rest, NEWLINE);
    SplitJoin(block + rest, NEWLINE);
    assert block + rest == block + [""] + Split(body, NEWLINE);
    TwoNewlines(Join(block, NEWLINE), body);
  }

  lemma TwoNewlines(block: string, body: string)
    ensures block + [NEWLINE] + ("" + [NEWLINE] + body) == block + [NEWLINE] + [NEWLINE] + body
  {
  }

  lemma BlockIsLines(meta: Meta, keys: seq<string>)
    requires Lists(keys, meta) && NewlineSafe(meta)
    ensures var block := [DELIMITER] + EntryLines(meta, keys) + [DELIMITER];
            forall i :: 0 <= i < |block| ==> Free(block[i], NEWLINE)
  {
    hide EntryLine;
    var block := [DELIMITER] + EntryLines(meta, keys) + [DELIMITER];
    forall i | 0 <= i < |block| ensures Free(block[i], NEWLINE) {
      if 1 <= i <= |keys| { EntryIsOneLine(keys[i - 1], meta[keys[i - 1]]); }
    }
  }

  /** The printed block is recognised exactly when it has an entry. */
  lemma WrapIsBlock(meta: Meta, keys: seq<string>, content: string)
    requires Lists(keys, meta) && NewlineSafe(meta)
    ensures var lines := Split(Wrap(meta, keys, content), NEWLINE);
            && Closing(lines, 1) == |keys| + 1 < |lines| && lines[1..|keys| + 1] == EntryLines(meta, keys)
            && (HasBlock(lines) <==> keys != [])
            && BodyAfter(lines, |keys| + 1) == DropNewlines(StripFrontmatter(content))
  {
    hide Wrap, StripFrontmatter, EntryLine, IsMapping, Closes, Closing, HasBlock, BodyAfter, Split;
    WrapLines(meta, keys, content);
    forall i | 0 <= i < |keys| ensures IsMapping(EntryLines(meta, keys)[i]) && !Closes(EntryLines(meta, keys)[i]) {
      EntryIsMapping(keys[i], meta[keys[i]]);
    }
    BlockAround(EntryLines(meta, keys), StripFrontmatter(content));
  }

  lemma BlockAround(entries: seq<string>, body: string)
    requires forall i :: 0 <= i < |entries| ==> IsMapping(entries[i]) && !Closes(entries[i])
    ensures var lines := [DELIMITER] + entries + [DELIMITER] + [""] + Split(body, NEWLINE);
            && Closing(lines, 1) == |entries| + 1 && lines[1..|entries| + 1] == entries
            && (HasBlock(lines) <==> entries != [])
            && BodyAfter(lines, |entries| + 1) == DropNewlines(body)
  {
    hide IsMapping, Strip, Closing, Join, Split, DropNewlines;
    var lines := [DELIMITER] + entries + [DELIMITER] + [""] + Split(body, NEWLINE);
    assert Closes(DELIMITER) by { StripTrims(DELIMITER); }
    hide Closes;
    assert forall i :: 1 <= i <= |entries| ==> lines[i] == entries[i - 1];
    assert lines[|entries| + 1] == DELIMITER && lines[|entries| + 2..] == [""] + Split(body, NEWLINE);
    ClosingIs(lines, 1, |entries| + 1);
    if entries != [] { assert IsMapping(lines[1]); }
    assert Join([""] + Split(body, NEWLINE), NEWLINE) == [NEWLINE] + body by {
      JoinSplit(body, NEWLINE);
      JoinFirst("", Split(body, NEWLINE), NEWLINE);
    }
    DropNewlinesShape(body);
  }

  lemma ClosingIs(lines: seq<string>, i: nat, c: nat)
    requires i <= c < |lines| && Closes(lines[c]) && forall j :: i <= j < c ==> !Closes(lines[j])
    ensures Closing(lines, i) == c
  {
  }

  /** Reading back what was wrapped: for nonempty newline-safe metadata the
      body is always the stripped content without leading newlines, and the
      metadata is itself exactly when every entry is clean. */
  lemma RoundTripIff(meta: Meta, keys: seq<string>, content: string)
    requires Lists(keys, meta) && NewlineSafe(meta) && meta != map[]
    ensures Extract(Wrap(meta, keys, content)).1 == DropNewlines(StripFrontmatter(content))
    ensures Extract(Wrap(meta, keys, content)).0 == Some(meta) <==> Clean(meta)
  {
    hide Wrap, HasBlock, ParseLines, Closing, BodyAfter, Clean, DropNewlines, Split, EntryLines, StripFrontmatter;
    WrapIsBlock(meta, keys, content);
    ParsesBackIff(meta, keys);
    var k :| k in meta;
    assert k in keys;
  }

  /** Wrapping replaces an earlier block instead of adding a second one,
      exactly when the stripped content has no leading newline to lose. */
  lemma RewrapIff(meta: Meta, keys: seq<string>, other: Meta, otherKeys: seq<string>, content: string)
    requires Lists(keys, meta) && NewlineSafe(meta) && meta != map[] && Lists(otherKeys, other)
    ensures var body := StripFrontmatter(content);
            Wrap(other, otherKeys, Wrap(meta, keys, content)) == Wrap(other, otherKeys, content)
            <==> body == "" || body[0] != NEWLINE
  {
    hide Wrap, StripFrontmatter, Serialize, DropNewlines;
    var body := StripFrontmatter(content);
    StrippedWrap(meta, keys, content);
    DropNewlinesShape(body);
    var prefix := Serialize(other, otherKeys) + [NEWLINE];
    WrapIs(other, otherKeys, Wrap(meta, keys, content));
    WrapIs(other, otherKeys, content);
    SamePrefix(prefix, DropNewlines(body), body);
  }

  lemma WrapIs(meta: Meta, keys: seq<string>, content: string)
    requires Lists(keys, meta)
    ensures Wrap(meta, keys, content) == Serialize(meta, keys) + [NEWLINE] + StripFrontmatter(content)
  {
  }

  lemma SamePrefix(prefix: string, one: string, other: string)
    ensures prefix + one == prefix + other <==> one == other
  {
    assert (prefix + one)[|prefix|..] == one && (prefix + other)[|prefix|..] == other;
  }

  /** Stripping what was wrapped leaves the stripped content without leading newlines. */
  lemma StrippedWrap(meta: Meta, keys: seq<string>, content: string)
    requires Lists(keys, meta) && NewlineSafe(meta) && meta != map[]
    ensures StripFrontmatter(Wrap(meta, keys, content)) == DropNewlines(StripFrontmatter(content))
  {
    hide Wrap, HasBlock, Closing, BodyAfter, DropNewlines, Split, EntryLines;
    WrapIsBlock(meta, keys, content);
    var k :| k in meta;
    assert k in keys;
  }

  /** Empty metadata prints a block that no reader recognises. */
  lemma EmptyMetaIsNotFrontmatter(content: string)
    ensures Extract(Wrap(map[], [], content)) == (None, Wrap(map[], [], content))
  {
    WrapIsBlock(map[], [], content);
  }
}
