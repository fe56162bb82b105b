/**
 Comma-separated lists in the form (apps/web/src/workload.ts): compliance frameworks, and tags
 written as `key:value`. Each has a parser and a printer.
 */
module TextLists {
  import opened Text

  // ---- Plain lists --------------------------------------------------------------------

  /** `.map(trim).filter(Boolean)` */
  function NonBlank(parts: seq<string>): seq<string> {
    if parts == [] then []
    else
      var item := Trim(parts[0]);
      (if item == "" then [] else [item]) + NonBlank(parts[1..])
  }

  function ParseList(text: string): seq<string> {
    NonBlank(Split(text, ','))
  }

  function PrintList(items: seq<string>): string {
    Join(items, ", ")
  }

  /** An item that printing and parsing can carry. */
  predicate IsListItem(item: string) {
    item != "" && IsTrimmed(item) && ',' !in item
  }

  predicate AllListItems(items: seq<string>) {
    forall i :: 0 <= i < |items| ==> IsListItem(items[i])
  }

  // ---- Tags ---------------------------------------------------------------------------

  datatype Tag = Tag(key: string, value: string)

  /** `const [key, ...rest] = item.split(':')`; a blank value reads as 'true'. */
  function ParseTag(item: string): Tag {
    var parts := Split(item, ':');
    var value := Trim(Join(parts[1..], ":"));
    Tag(Trim(parts[0]), if value == "" then "true" else value)
  }

  function Keyed(parts: seq<string>): seq<Tag> {
    if parts == [] then []
    else
      var tag := ParseTag(Trim(parts[0]));
      (if tag.key == "" then [] else [tag]) + Keyed(parts[1..])
  }

  function ParseTags(text: string): seq<Tag> {
    Keyed(Split(text, ','))
  }

  function PrintTag(tag: Tag): string {
    tag.key + ":" + tag.value
  }

  function PrintEach(tags: seq<Tag>): (r: seq<string>)
    ensures |r| == |tags|
    ensures forall i :: 0 <= i < |tags| ==> r[i] == PrintTag(tags[i])
  {
    if tags == [] then [] else [PrintTag(tags[0])] + PrintEach(tags[1..])
  }

  function PrintTags(tags: seq<Tag>): string {
    Join(PrintEach(tags), ", ")
  }

  /** A tag that printing and parsing can carry: its value may contain ':' but its key may not. */
  predicate IsWellFormedTag(tag: Tag) {
    && tag.key != "" && IsTrimmed(tag.key) && ',' !in tag.key && ':' !in tag.key
    && tag.value != "" && IsTrimmed(tag.value) && ',' !in tag.value
  }

  predicate AllWellFormed(tags: seq<Tag>) {
    forall i :: 0 <= i < |tags| ==> IsWellFormedTag(tags[i])
  }

  // ---- Splitting what was joined ------------------------------------------------------

  function Indent(items: seq<string>): (r: seq<string>)
    ensures |r| == |items|
  {
    if items == [] then [] else [" " + items[0]] + Indent(items[1..])
  }

  predicate CommaFree(items: seq<string>) {
    forall i :: 0 <= i < |items| ==> ',' !in items[i]
  }

  lemma SplitIndented(text: string)
    ensures Split(" " + text, ',') == [" " + Split(text, ',')[0]] + Split(text, ',')[1..]
  {
    assert (" " + text)[1..] == text;
  }

  lemma {:induction false} SplitOfJoin(items: seq<string>)
    requires items != [] && CommaFree(items)
    ensures Split(Join(items, ", "), ',') == [items[0]] + Indent(items[1..])
  {
    SplitOfOne(items[0], ',');
    if |items| > 1 {
      var rest := Join(items[1..], ", ");
      SplitOfJoin(items[1..]);
      assert Join(items, ", ") == items[0] + [','] + (" " + rest);
      SplitAtSeparator(items[0], " " + rest, ',');
      SplitIndented(rest);
      assert Split(rest, ',')[1..] == Indent(items[1..][1..]);
    }
  }

  lemma {:induction false} NonBlankOfIndented(items: seq<string>)
    requires AllListItems(items)
    ensures NonBlank(Indent(items)) == items
  {
    if items != [] {
      NonBlankOfIndented(items[1..]);
      TrimSkipsSpace(items[0]);
      TrimOfTrimmed(items[0]);
      assert Indent(items)[1..] == Indent(items[1..]);
      assert items == [items[0]] + items[1..];
    }
  }

  lemma {:induction false} NonBlankIsListItems(parts: seq<string>)
    requires CommaFree(parts)
    ensures AllListItems(NonBlank(parts))
  {
    if parts != [] {
      NonBlankIsListItems(parts[1..]);
      TrimTrims(parts[0]);
    }
  }

  lemma SplitIsCommaFree(text: string)
    ensures CommaFree(Split(text, ','))
  {
    forall i | 0 <= i < |Split(text, ',')| ensures ',' !in Split(text, ',')[i] {
      if ',' in Split(text, ',')[i] {
        SplitPart(text, ',', i, ',');
      }
    }
  }

  /** Whatever is typed, the items read are non-empty, trimmed and free of commas. */
  lemma ParseListShape(text: string)
    ensures AllListItems(ParseList(text))
  {
    SplitIsCommaFree(text);
    NonBlankIsListItems(Split(text, ','));
  }

  /** A list survives printing and parsing exactly when every item is non-empty, trimmed and free of commas. */
  lemma ListRoundTrip(items: seq<string>)
    ensures ParseList(PrintList(items)) == items <==> AllListItems(items)
  {
    if AllListItems(items) && items != [] {
      SplitOfJoin(items);
      NonBlankOfIndented(items[1..]);
      TrimOfTrimmed(items[0]);
      var parts := [items[0]] + Indent(items[1..]);
      assert parts[1..] == Indent(items[1..]);
    }
    ParseListShape(PrintList(items));
  }

  // ---- Tags survive -------------------------------------------------------------------

  lemma PrintedTag(tag: Tag)
    requires IsWellFormedTag(tag)
    ensures IsTrimmed(PrintTag(tag)) && ',' !in PrintTag(tag)
    ensures ParseTag(PrintTag(tag)) == tag
  {
    assert PrintTag(tag) == tag.key + [':'] + tag.value;
    SplitAtSeparator(tag.key, tag.value, ':');
    SplitOfOne(tag.key, ':');
    var parts := Split(PrintTag(tag), ':');
    assert parts[1..] == Split(tag.value, ':');
    JoinOfSplit(tag.value, ':');
    TrimOfTrimmed(tag.key);
    TrimOfTrimmed(tag.value);
  }

  lemma IndentedTag(tag: Tag)
    requires IsWellFormedTag(tag)
    ensures ParseTag(Trim(" " + PrintTag(tag))) == tag
  {
    PrintedTag(tag);
    TrimSkipsSpace(PrintTag(tag));
    TrimOfTrimmed(PrintTag(tag));
  }

  lemma {:induction false} KeyedOfIndented(tags: seq<Tag>)
    requires AllWellFormed(tags)
    ensures Keyed(Indent(PrintEach(tags))) == tags
  {
    if tags != [] {
      var first, rest := tags[0], tags[1..];
      KeyedOfIndented(rest);
      IndentedTag(first);
      var parts := Indent(PrintEach(tags));
      assert PrintEach(tags)[1..] == PrintEach(rest);
      assert parts[0] == " " + PrintTag(first) && parts[1..] == Indent(PrintEach(rest));
      assert Keyed(parts) == [first] + rest;
    }
  }

  lemma ParseTagShape(item: string)
    requires ',' !in item
    ensures ParseTag(item).key == "" || IsWellFormedTag(ParseTag(item))
  {
    var parts := Split(item, ':');
    var value := Join(parts[1..], ":");
    JoinOfSplit(item, ':');
    TrimTrims(parts[0]);
    TrimTrims(value);
    if ',' in parts[0] {
      SplitPart(item, ':', 0, ',');
    }
    if ':' in parts[0] {
      SplitPart(item, ':', 0, ':');
    }
    if |parts| > 1 {
      assert item == parts[0] + ":" + value;
    }
  }

  lemma {:induction false} KeyedIsWellFormed(parts: seq<string>)
    requires CommaFree(parts)
    ensures AllWellFormed(Keyed(parts))
  {
    if parts != [] {
      KeyedIsWellFormed(parts[1..]);
      TrimTrims(parts[0]);
      ParseTagShape(Trim(parts[0]));
    }
  }

  /** Whatever is typed, every tag read has a non-empty trimmed key without ',' or ':' and a non-empty trimmed
      value without ','. */
  lemma ParseTagsShape(text: string)
    ensures AllWellFormed(ParseTags(text))
  {
    SplitIsCommaFree(text);
    KeyedIsWellFormed(Split(text, ','));
  }

  /** Tags survive printing and parsing exactly when all of them have that shape. */
  lemma TagsRoundTrip(tags: seq<Tag>)
    ensures ParseTags(PrintTags(tags)) == tags <==> AllWellFormed(tags)
  {
    if AllWellFormed(tags) {
      if tags == [] {
        assert ParseTag("").key == "";
      } else {
        var printed := PrintEach(tags);
        forall i | 0 <= i < |tags| ensures ',' !in printed[i] {
          PrintedTag(tags[i]);
        }
        SplitOfJoin(printed);
        PrintedTag(tags[0]);
        TrimOfTrimmed(PrintTag(tags[0]));
        assert printed[1..] == PrintEach(tags[1..]);
        KeyedOfIndented(tags[1..]);
        var parts := [printed[0]] + Indent(printed[1..]);
        assert parts[1..] == Indent(printed[1..]);
      }
    }
    ParseTagsShape(PrintTags(tags));
  }
}
