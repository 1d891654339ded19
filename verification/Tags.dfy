/**
  * IRCv3 message tags. A `Map` keeps insertion order and one value per key, so
  * tags are an association list whose names are unique.
  */
module MessageTags {
  import opened Units
  import opened Escapes

  datatype Tag = Tag(name: Text, value: Text)

  type Tags = seq<Tag>

  ghost predicate UniqueNames(tags: Tags) {
    forall i, j | 0 <= i < j < |tags| :: tags[i].name != tags[j].name
  }

  /** `tags.set(name, value)`: an existing key keeps its place. */
  function SetTag(tags: Tags, name: Text, value: Text): Tags {
    if tags == [] then [Tag(name, value)]
    else if tags[0].name == name then [Tag(name, value)] + tags[1..]
    else [tags[0]] + SetTag(tags[1..], name, value)
  }

  /** `tags.get(name)`. */
  function GetTag(tags: Tags, name: Text): Option<Text> {
    if tags == [] then None
    else if tags[0].name == name then Some(tags[0].value)
    else GetTag(tags[1..], name)
  }

  lemma {:induction false} SetKeepsUnique(tags: Tags, name: Text, value: Text)
    requires UniqueNames(tags)
    ensures UniqueNames(SetTag(tags, name, value))
    ensures forall t | t in SetTag(tags, name, value) :: t == Tag(name, value) || t in tags
  {
    if tags != [] && tags[0].name != name {
      SetKeepsUnique(tags[1..], name, value);
      var rest := SetTag(tags[1..], name, value);
      forall j | 0 <= j < |rest| ensures tags[0].name != rest[j].name {
        assert rest[j] in rest;
      }
    }
  }

  /** A map reads back what was last set, and nothing else changes. */
  lemma {:induction false} GetAfterSet(tags: Tags, name: Text, value: Text, other: Text)
    ensures GetTag(SetTag(tags, name, value), other)
         == if other == name then Some(value) else GetTag(tags, other)
  {
    if tags != [] && tags[0].name != name {
      GetAfterSet(tags[1..], name, value, other);
    }
  }

  /** Setting a new name appends it. */
  lemma {:induction false} SetFresh(tags: Tags, name: Text, value: Text)
    requires forall t | t in tags :: t.name != name
    ensures SetTag(tags, name, value) == tags + [Tag(name, value)]
  {
    if tags == [] {
    } else {
      SetFresh(tags[1..], name, value);
    }
  }

  function ParseEntry(entry: Text): Tag
  {
    var k := Find(entry, EQUALS);
    if k == |entry| then Tag(entry, [])
    else Tag(entry[..k], Dequote(TagValue, entry[k + 1..]))
  }

  /** The loop over the entries of a tag section, started from `acc`. */
  function ParseEntries(entries: seq<Text>, acc: Tags): Tags {
    if entries == [] then acc
    else if entries[0] == [] then ParseEntries(entries[1..], acc)
    else
      var tag := ParseEntry(entries[0]);
      ParseEntries(entries[1..], SetTag(acc, tag.name, tag.value))
  }

  function ParseTags(section: Text): Tags {
    if section == [] then [] else ParseEntries(Split(section, SEMICOLON), [])
  }

  function EntryText(tag: Tag): Text {
    if tag.value == [] then tag.name
    else tag.name + [EQUALS] + Quote(TagValue, tag.value)
  }

  function Entries(tags: Tags): (entries: seq<Text>)
    ensures |entries| == |tags|
    ensures forall i | 0 <= i < |tags| :: entries[i] == EntryText(tags[i])
  {
    seq(|tags|, i requires 0 <= i < |tags| => EntryText(tags[i]))
  }

  function SerializeTags(tags: Tags): Text {
    if tags == [] then [] else [AT] + Join(Entries(tags), SEMICOLON)
  }

  /** What a tag must look like for its entry to be read back as that tag. */
  predicate ReadableTag(tag: Tag) {
    EQUALS !in tag.name && (tag.name != [] || tag.value != [])
  }

  lemma EntryRoundTrip(tag: Tag)
    requires ReadableTag(tag)
    ensures EntryText(tag) != [] && ParseEntry(EntryText(tag)) == tag
  {
    var entry := EntryText(tag);
    FindUnique(entry, EQUALS, |tag.name|);
    if tag.value != [] {
      assert entry[|tag.name| + 1..] == Quote(TagValue, tag.value);
      DequoteQuote(TagValue, tag.value);
    }
  }

  lemma {:induction false} EntriesRoundTrip(tags: Tags, acc: Tags)
    requires UniqueNames(acc + tags)
    requires forall t | t in tags :: ReadableTag(t)
    ensures ParseEntries(Entries(tags), acc) == acc + tags
  {
    if tags == [] {
      assert acc + tags == acc;
    } else {
      var t := tags[0];
      EntryRoundTrip(t);
      forall a | a in acc ensures a.name != t.name {
        var i :| 0 <= i < |acc| && acc[i] == a;
        assert (acc + tags)[i] == a && (acc + tags)[|acc|] == t;
      }
      SetFresh(acc, t.name, t.value);
      assert acc + [t] + tags[1..] == acc + tags;
      assert Entries(tags)[1..] == Entries(tags[1..]);
      EntriesRoundTrip(tags[1..], acc + [t]);
    }
  }

  /** Which units an entry can hold: none that end the entry or the section. */
  lemma EntryIsClean(tag: Tag, u: Unit)
    requires u in {SPACE, SEMICOLON, CR, LF} && u !in tag.name
    ensures u !in EntryText(tag)
  {
    QuoteIsClean(TagValue, tag.value, u);
  }

  lemma EntriesAreClean(tags: Tags, u: Unit)
    requires u in {SPACE, SEMICOLON, CR, LF}
    requires forall t | t in tags :: u !in t.name
    ensures forall e | e in Entries(tags) :: u !in e
  {
    forall e | e in Entries(tags) ensures u !in e {
      var i :| 0 <= i < |tags| && Entries(tags)[i] == e;
      EntryIsClean(tags[i], u);
    }
  }

  /** Parsing inverts serializing for readable tags whose names hold no `;`. */
  lemma TagsRoundTrip(tags: Tags)
    requires tags != [] && UniqueNames(tags)
    requires forall t | t in tags :: ReadableTag(t) && SEMICOLON !in t.name
    ensures ParseTags(SerializeTags(tags)[1..]) == tags
  {
    var entries := Entries(tags);
    var section := Join(entries, SEMICOLON);
    assert SerializeTags(tags)[1..] == section;
    EntriesAreClean(tags, SEMICOLON);
    SplitJoin(entries, SEMICOLON);
    EntryRoundTrip(tags[0]);
    assert Split([], SEMICOLON) == [[]] && entries[0] != [];
    assert [] + tags == tags;
    EntriesRoundTrip(tags, []);
  }

  // What the parser can produce at all.

  function NonEmpty(entries: seq<Text>): nat {
    if entries == [] then 0
    else (if entries[0] == [] then 0 else 1) + NonEmpty(entries[1..])
  }

  lemma {:induction false} NonEmptyBound(entries: seq<Text>)
    ensures NonEmpty(entries) <= |entries|
    ensures [] in entries ==> NonEmpty(entries) < |entries|
  {
    if entries == [] {
    } else {
      NonEmptyBound(entries[1..]);
    }
  }

  lemma {:induction false} SetLength(tags: Tags, name: Text, value: Text)
    ensures |tags| <= |SetTag(tags, name, value)| <= |tags| + 1
  {
    if tags != [] && tags[0].name != name {
      SetLength(tags[1..], name, value);
    }
  }

  lemma {:induction false} ParsedEntriesRange(entries: seq<Text>, acc: Tags)
    requires UniqueNames(acc) && forall t | t in acc :: EQUALS !in t.name
    ensures var tags := ParseEntries(entries, acc);
            && UniqueNames(tags)
            && |tags| <= |acc| + NonEmpty(entries)
            && forall t | t in tags :: EQUALS !in t.name
  {
    if entries == [] {
    } else {
      if entries[0] == [] {
        ParsedEntriesRange(entries[1..], acc);
      } else {
        var tag := ParseEntry(entries[0]);
        SetKeepsUnique(acc, tag.name, tag.value);
        SetLength(acc, tag.name, tag.value);
        ParsedEntriesRange(entries[1..], SetTag(acc, tag.name, tag.value));
      }
    }
  }

  /** Parsed names are unique and free of `=`, whatever the section held. */
  lemma ParsedTagsRange(section: Text)
    ensures UniqueNames(ParseTags(section))
    ensures forall t | t in ParseTags(section) :: EQUALS !in t.name
  {
    if section != [] {
      ParsedEntriesRange(Split(section, SEMICOLON), []);
    }
  }

  /** A nameless tag without a value is written as nothing, and so is lost. */
  lemma NamelessTagIsLost(tags: Tags)
    requires tags != [] && Tag([], []) in tags
    requires forall t | t in tags :: SEMICOLON !in t.name
    ensures ParseTags(SerializeTags(tags)[1..]) != tags
  {
    var entries := Entries(tags);
    var section := Join(entries, SEMICOLON);
    assert SerializeTags(tags)[1..] == section;
    EntriesAreClean(tags, SEMICOLON);
    SplitJoin(entries, SEMICOLON);
    ParsedEntriesRange(entries, []);
    var i :| 0 <= i < |tags| && tags[i] == Tag([], []);
    assert entries[i] == [];
    NonEmptyBound(entries);
  }

  /** A tag section reads back as it was written exactly when every tag is one the parser can produce. */
  lemma TagsReadBack(tags: Tags)
    requires tags != [] && UniqueNames(tags)
    requires forall t | t in tags :: SEMICOLON !in t.name
    ensures ParseTags(SerializeTags(tags)[1..]) == tags <==> forall t | t in tags :: ReadableTag(t)
  {
    if forall t | t in tags :: ReadableTag(t) {
      TagsRoundTrip(tags);
    } else {
      var t :| t in tags && !ReadableTag(t);
      ParsedTagsRange(SerializeTags(tags)[1..]);
      if EQUALS !in t.name {
        assert t == Tag([], []);
        NamelessTagIsLost(tags);
      }
    }
  }

  method ParseTagSection(section: Text) returns (tags: Tags)
    ensures tags == ParseTags(section)
    ensures UniqueNames(tags)
  {
    ParsedTagsRange(section);
    tags := [];
    if section == [] {
      return;
    }
    var entries := Split(section, SEMICOLON);
    for i := 0 to |entries|
      invariant ParseEntries(entries, []) == ParseEntries(entries[i..], tags)
    {
      var entry := entries[i];
      assert entries[i..][1..] == entries[i + 1..];
      if entry != [] {
        var equals := Find(entry, EQUALS);
        if equals == |entry| {
          tags := SetTag(tags, entry, []);
        } else {
          var value := DequoteText(TagValue, entry[equals + 1..]);
          tags := SetTag(tags, entry[..equals], value);
        }
      }
    }
  }

  method WriteTags(tags: Tags) returns (text: Text)
    ensures text == SerializeTags(tags)
  {
    if |tags| == 0 {
      return [];
    }
    var parts: seq<Text> := [];
    for i := 0 to |tags|
      invariant parts == Entries(tags)[..i]
    {
      var escaped := QuoteText(TagValue, tags[i].value);
      parts := parts + [if tags[i].value == [] then tags[i].name else tags[i].name + [EQUALS] + escaped];
    }
    assert parts == Entries(tags);
    text := [AT] + Join(parts, SEMICOLON);
  }

  // ---------- Reading any section ----------

  /** Setting a name that is there keeps its place. */
  lemma {:induction false} SetInPlace(tags: Tags, name: Text, value: Text, i: nat)
    requires i < |tags| && tags[i].name == name && forall k | 0 <= k < i :: tags[k].name != name
    ensures SetTag(tags, name, value) == tags[i := Tag(name, value)]
  {
    if i > 0 {
      SetInPlace(tags[1..], name, value, i - 1);
    }
  }

  /** An entry `name` or `name=value`, the value still escaped. */
  function EntryOf(name: Text, value: Option<Text>): Text {
    name + if value.None? then [] else Ascii("=") + value.value
  }

  /** An entry is about the name before its first `=`. */
  predicate IsAbout(entry: Text, name: Text) {
    entry != [] && entry[..Find(entry, EQUALS)] == name
  }

  lemma EntryIsRead(name: Text, value: Option<Text>)
    requires EQUALS !in name
    ensures ParseEntry(EntryOf(name, value)) == Tag(name, if value.None? then [] else Dequote(TagValue, value.value))
  {
    var entry := EntryOf(name, value);
    FindUnique(entry, EQUALS, |name|);
    assert value.Some? ==> entry[|name| + 1..] == value.value;
  }

  lemma {:induction false} OtherEntriesKeep(entries: seq<Text>, acc: Tags, name: Text)
    requires forall e | e in entries :: !IsAbout(e, name)
    ensures GetTag(ParseEntries(entries, acc), name) == GetTag(acc, name)
  {
    if entries == [] {
    } else {
      assert forall e | e in entries[1..] :: e in entries;
      if entries[0] == [] {
        OtherEntriesKeep(entries[1..], acc, name);
      } else {
        var tag := ParseEntry(entries[0]);
        assert !IsAbout(entries[0], name);
        GetAfterSet(acc, tag.name, tag.value, name);
        OtherEntriesKeep(entries[1..], SetTag(acc, tag.name, tag.value), name);
      }
    }
  }

  lemma {:induction false} LastEntryIsKept(before: seq<Text>, entry: Text, after: seq<Text>, acc: Tags, name: Text)
    requires IsAbout(entry, name) && forall e | e in after :: !IsAbout(e, name)
    ensures GetTag(ParseEntries(before + [entry] + after, acc), name) == Some(ParseEntry(entry).value)
    decreases |before|
  {
    var entries := before + [entry] + after;
    if before == [] {
      var tag := ParseEntry(entry);
      assert entries[0] == entry && entries[1..] == after;
      GetAfterSet(acc, tag.name, tag.value, name);
      OtherEntriesKeep(after, SetTag(acc, tag.name, tag.value), name);
    } else {
      assert entries[0] == before[0] && entries[1..] == before[1..] + [entry] + after;
      var tag := ParseEntry(before[0]);
      LastEntryIsKept(before[1..], entry, after, if before[0] == [] then acc else SetTag(acc, tag.name, tag.value),
                      name);
    }
  }

  /**
    * Whatever a section holds - empty entries, repeated names, values without
    * escapes - a name has the value of its last entry, an entry without `=` has
    * the empty value, and a name without an entry has none.
    */
  lemma LastEntryWins(before: seq<Text>, name: Text, value: Option<Text>, after: seq<Text>)
    requires EQUALS !in name && EntryOf(name, value) != []
    requires forall e | e in before + [EntryOf(name, value)] + after :: SEMICOLON !in e
    requires forall e | e in after :: !IsAbout(e, name)
    ensures GetTag(ParseTags(Join(before + [EntryOf(name, value)] + after, SEMICOLON)), name)
         == Some(if value.None? then [] else Dequote(TagValue, value.value))
  {
    var entry := EntryOf(name, value);
    var entries := before + [entry] + after;
    FindUnique(entry, EQUALS, |name|);
    SplitJoin(entries, SEMICOLON);
    assert entries[|before|] == entry;
    NonEmptyJoin(entries, |before|);
    EntryIsRead(name, value);
    LastEntryIsKept(before, entry, after, [], name);
  }

  lemma {:induction false} NonEmptyJoin(entries: seq<Text>, i: nat)
    requires i < |entries| && entries[i] != []
    ensures Join(entries, SEMICOLON) != []
  {
  }

  lemma NoEntryNoTag(entries: seq<Text>, name: Text)
    requires entries != [] && forall e | e in entries :: SEMICOLON !in e && !IsAbout(e, name)
    ensures GetTag(ParseTags(Join(entries, SEMICOLON)), name) == None
  {
    SplitJoin(entries, SEMICOLON);
    OtherEntriesKeep(entries, [], name);
  }

  /** A tag without a value is written without `=`. */
  lemma ValuesAreMarked(tag: Tag)
    requires EQUALS !in tag.name
    ensures EQUALS in EntryText(tag) <==> tag.value != []
    ensures tag.value == [] ==> EntryText(tag) == tag.name
  {
    if tag.value != [] {
      assert EntryText(tag)[|tag.name|] == EQUALS;
    }
  }
}
