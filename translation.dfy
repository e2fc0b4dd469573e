/**
  Translations and `writeFile`: one context's translations rendered as the text
  of an Apple `.strings` table and as the dictionary of a `.stringsdict` plural
  file. The contents are returned as values; only whether a write fails is
  taken from the file system, which is a parameter.
*/
module Translations {
  import opened Basics
  import opened Escaping
  import opened Paths
  import StringOrder

  /** A translated term: one definition (possibly none) or a map of plural forms. */
  datatype TranslatedTerm =
    | HasDefinition(definition: Option<string>)
    | HasPlurals(plurals: map<string, string>)

  datatype Translation = Translation(comment: Option<string>, term: string, translated: TranslatedTerm)

  // ---------------------------------------------------------------- .strings

  /** The value written to the `.strings` table: the definition, or the "other" plural form. */
  function DisplayValue(t: TranslatedTerm): Option<string> {
    match t
    case HasDefinition(d) => d
    case HasPlurals(p) => if "other" in p then Some(p["other"]) else None
  }

  /** A non-empty translator note as a block comment, literal backslash-n made into line breaks. */
  function CommentBlock(comment: Option<string>): string {
    match comment
    case Some(note) => if note != "" then "/* " + ExpandLineBreaks(note) + " */\n" else ""
    case None => ""
  }

  /** One key/value statement; the value is escaped, the term is copied as it is. */
  function Statement(term: string, value: string): (r: string)
    ensures |r| >= 8 && EndsWith(r, "\";\n")
  {
    "\"" + term + "\" = \"" + Escape(value) + "\";\n"
  }

  /** What one translation adds to the table, if it has a value to show. */
  function Entry(t: Translation): (r: Option<string>)
    ensures r.Some? <==> DisplayValue(t.translated).Some?
    ensures r.Some? ==> r.value != ""
  {
    match DisplayValue(t.translated)
    case None => None
    case Some(v) => Some(CommentBlock(t.comment) + Statement(t.term, v))
  }

  function EntryList(t: Translation): seq<string> {
    match Entry(t)
    case None => []
    case Some(e) => [e]
  }

  /** The entries of the translations that have a value, in input order. */
  function Entries(ts: seq<Translation>): seq<string>
    decreases |ts|
  {
    if ts == [] then [] else Entries(ts[..|ts| - 1]) + EntryList(ts[|ts| - 1])
  }

  /** The entries one after another, a single "\n" between two consecutive ones. */
  function JoinBlank(es: seq<string>): string
    decreases |es|
  {
    if es == [] then ""
    else if |es| == 1 then es[0]
    else JoinBlank(es[..|es| - 1]) + "\n" + es[|es| - 1]
  }

  /** The text of the `.strings` table of a context. */
  function StringsText(ts: seq<Translation>): string {
    JoinBlank(Entries(ts))
  }

  predicate AllNonEmpty(es: seq<string>) {
    forall k :: 0 <= k < |es| ==> es[k] != ""
  }

  lemma {:induction false} EntriesNonEmpty(ts: seq<Translation>)
    ensures AllNonEmpty(Entries(ts))
    decreases |ts|
  {
    if ts != [] { EntriesNonEmpty(ts[..|ts| - 1]); }
  }

  lemma JoinBlankEmpty(es: seq<string>)
    requires AllNonEmpty(es)
    ensures JoinBlank(es) == "" <==> es == []
  {
    if |es| > 1 {
      assert |JoinBlank(es)| >= |es[|es| - 1]| > 0;
    }
  }

  /** The entries of a concatenation are the entries of the parts, in order. */
  lemma {:induction false} EntriesAppend(a: seq<Translation>, b: seq<Translation>)
    ensures Entries(a + b) == Entries(a) + Entries(b)
    decreases |b|
  {
    if b == [] {
      assert a + b == a;
    } else {
      var b' := b[..|b| - 1];
      assert (a + b)[..|a + b| - 1] == a + b';
      assert (a + b)[|a + b| - 1] == b[|b| - 1];
      EntriesAppend(a, b');
    }
  }

  lemma {:induction false} JoinBlankAppend(x: seq<string>, y: seq<string>)
    requires x != [] && y != []
    ensures JoinBlank(x + y) == JoinBlank(x) + "\n" + JoinBlank(y)
    decreases |y|
  {
    if |y| == 1 {
      assert (x + y)[..|x + y| - 1] == x;
    } else {
      var y' := y[..|y| - 1];
      assert (x + y)[..|x + y| - 1] == x + y';
      JoinBlankAppend(x, y');
    }
  }

  /** The table is empty exactly when no translation has a value to show. */
  lemma StringsTextEmptyIff(ts: seq<Translation>)
    ensures StringsText(ts) == "" <==> forall i :: 0 <= i < |ts| ==> DisplayValue(ts[i].translated).None?
  {
    EntriesNonEmpty(ts);
    JoinBlankEmpty(Entries(ts));
    EntriesEmptyIff(ts);
  }

  lemma {:induction false} EntriesEmptyIff(ts: seq<Translation>)
    ensures Entries(ts) == [] <==> forall i :: 0 <= i < |ts| ==> DisplayValue(ts[i].translated).None?
    decreases |ts|
  {
    if ts != [] {
      var init := ts[..|ts| - 1];
      EntriesEmptyIff(init);
      assert forall i :: 0 <= i < |init| ==> init[i] == ts[i];
    }
  }

  /** A translation without a value leaves the table exactly as it would be without it. */
  lemma SkippedTranslationLeavesNoTrace(a: seq<Translation>, t: Translation, b: seq<Translation>)
    requires DisplayValue(t.translated).None?
    ensures StringsText(a + [t] + b) == StringsText(a + b)
  {
    assert [t][..0] == [];
    assert Entries([t]) == [];
    EntriesAppend(a + [t], b);
    EntriesAppend(a, [t]);
    EntriesAppend(a, b);
    assert Entries(a + [t]) == Entries(a);
    assert Entries(a + [t] + b) == Entries(a) + Entries(b);
    assert Entries(a + [t] + b) == Entries(a + b);
  }

  /**
    Two parts that each have something to show are joined by one "\n"; since
    every entry ends with a line break, a blank line separates them.
  */
  lemma StringsTextAppend(a: seq<Translation>, b: seq<Translation>)
    requires StringsText(a) != "" && StringsText(b) != ""
    ensures StringsText(a + b) == StringsText(a) + "\n" + StringsText(b)
  {
    EntriesAppend(a, b);
    assert Entries(a) != [] && Entries(b) != [];
    JoinBlankAppend(Entries(a), Entries(b));
  }

  /** A one-translation table: the optional comment block, then the statement. */
  lemma StringsTextSingle(t: Translation, v: string)
    requires DisplayValue(t.translated) == Some(v)
    ensures StringsText([t]) == CommentBlock(t.comment) + Statement(t.term, v)
    ensures EndsWith(StringsText([t]), "\";\n")
  {
    var e := CommentBlock(t.comment) + Statement(t.term, v);
    assert [t][..0] == [];
    assert Entries([t]) == [e];
    assert StringsText([t]) == e;
    EndsWithAppend(CommentBlock(t.comment), Statement(t.term, v), "\";\n");
  }

  /**
    How a `.strings` reader reads one statement back: a quoted key, " = ", a
    quoted value and ";" with the line break.
  */
  function ParseStatement(line: string): Option<(string, string)> {
    if |line| == 0 || line[0] != '"' then None
    else match ReadQuoted(line[1..])
      case None => None
      case Some((key, afterKey)) =>
        if !StartsWith(afterKey, " = \"") then None
        else match ReadQuoted(afterKey[4..])
          case None => None
          case Some((value, afterValue)) =>
            if afterValue == ";\n" then Some((key, value)) else None
  }

  /**
    A statement reads back as the term and value it was written from, provided
    the term has no quote or backslash (it is not escaped) and the value has no
    backslash (backslashes are not escaped). Line breaks are fine in both: the
    term's are copied raw, the value's are escaped.
  */
  lemma StatementReadsBack(term: string, value: string)
    requires '"' !in term && '\\' !in term
    requires '\\' !in value
    ensures ParseStatement(Statement(term, value)) == Some((term, value))
  {
    var line := Statement(term, value);
    var afterKey := " = \"" + Escape(value) + "\";\n";
    assert line[1..] == term + "\"" + afterKey;
    ReadQuotedPlain(term, afterKey);
    assert afterKey[4..] == Escape(value) + "\"" + ";\n";
    ReadQuotedEscape(value, ";\n");
  }

  /** A term holding a double quote ends its key early: the statement no longer reads back. */
  lemma QuotedTermDoesNotReadBack()
    ensures ParseStatement(Statement("a\"b", "v")) != Some(("a\"b", "v"))
  {
    var line := Statement("a\"b", "v");
    ReadQuotedPlain("a", "b\" = \"" + Escape("v") + "\";\n");
    assert line[1..] == "a" + "\"" + ("b\" = \"" + Escape("v") + "\";\n");
  }

  /** One more translation: nothing changes without a value; otherwise its entry follows, after a "\n" separator if the text was not empty. */
  lemma StringsTextSnoc(ts: seq<Translation>, t: Translation)
    ensures DisplayValue(t.translated).None? ==> StringsText(ts + [t]) == StringsText(ts)
    ensures DisplayValue(t.translated).Some? ==>
      StringsText(ts + [t]) == (if StringsText(ts) == "" then "" else StringsText(ts) + "\n") + Entry(t).value
  {
    assert (ts + [t])[..|ts|] == ts;
    var es := Entries(ts);
    assert Entries(ts + [t]) == es + EntryList(t);
    EntriesNonEmpty(ts);
    JoinBlankEmpty(es);
    if DisplayValue(t.translated).None? {
      assert es + EntryList(t) == es;
    } else if es == [] {
      assert es + EntryList(t) == [Entry(t).value];
    } else {
      assert (es + [Entry(t).value])[..|es|] == es;
    }
  }

  /** The body of that loop for a translation with a value: the note, if any, then the statement. */
  method RenderEntry(t: Translation, translatedTerm: string) returns (entry: string)
    requires DisplayValue(t.translated) == Some(translatedTerm)
    ensures Entry(t) == Some(entry)
  {
    entry := "";
    match t.comment {
      case Some(note) =>
        if note != "" {
          var noteWithLinebreaks := ExpandLineBreaks(note);
          entry := "/* " + noteWithLinebreaks + " */\n";
        }
      case None =>
    }
    var cleanTranslation := Escape(translatedTerm);
    var line := "\"" + t.term + "\" = \"" + cleanTranslation + "\";\n";
    assert line == Statement(t.term, translatedTerm);
    entry := entry + line;
  }

  /** The loop of `writeFile` that accumulates the `.strings` text. */
  method BuildStringsText(ts: seq<Translation>) returns (text: string)
    ensures text == StringsText(ts)
  {
    text := "";
    for i := 0 to |ts|
      invariant text == StringsText(ts[..i])
    {
      assert ts[..i + 1] == ts[..i] + [ts[i]];
      StringsTextSnoc(ts[..i], ts[i]);
      var translatedTerm := DisplayValue(ts[i].translated);
      if translatedTerm.None? {
        continue;
      }
      if text != "" {
        text := text + "\n";
      }
      var entry := RenderEntry(ts[i], translatedTerm.value);
      text := text + entry;
    }
    assert ts[..|ts|] == ts;
  }

  // ------------------------------------------------------------ .stringsdict

  /** Property-list values: strings and dictionaries. */
  datatype PlistValue = PString(text: string) | PDict(entries: map<string, PlistValue>)

  const FormatKey := "NSStringLocalizedFormatKey"
  const FormatValue := "%#@items@"
  const ItemsKey := "items"
  const SpecTypeKey := "NSStringFormatSpecTypeKey"
  const PluralRuleType := "NSStringPluralRuleType"
  const ValueTypeKey := "NSStringFormatValueTypeKey"
  const IntegerValueType := "d"

  /** The plural forms that are not empty strings. */
  function NonEmptyForms(plurals: map<string, string>): map<string, string> {
    map k | k in plurals && plurals[k] != "" :: plurals[k]
  }

  /** The `items` dictionary: the forms, then the two marker keys (which win over a form of that name). */
  function ItemsDict(forms: map<string, string>): map<string, PlistValue> {
    (map k | k in forms :: PString(forms[k]))
      [SpecTypeKey := PString(PluralRuleType)]
      [ValueTypeKey := PString(IntegerValueType)]
  }

  function PluralItem(forms: map<string, string>): PlistValue {
    PDict(map[FormatKey := PString(FormatValue), ItemsKey := PDict(ItemsDict(forms))])
  }

  /** The non-empty forms of a translation that has plural forms, when there is at least one. */
  function PluralForms(t: Translation): Option<map<string, string>> {
    match t.translated
    case HasPlurals(p) => if NonEmptyForms(p) != map[] then Some(NonEmptyForms(p)) else None
    case HasDefinition(_) => None
  }

  /** The `.stringsdict` dictionary: one item per term, a later translation replacing an earlier one. */
  function PluralsDict(ts: seq<Translation>): map<string, PlistValue>
    decreases |ts|
  {
    if ts == [] then map[] else
      var prev := PluralsDict(ts[..|ts| - 1]);
      var t := ts[|ts| - 1];
      match PluralForms(t)
      case None => prev
      case Some(forms) => prev[t.term := PluralItem(forms)]
  }

  predicate Contributes(ts: seq<Translation>, i: int, term: string)
    requires 0 <= i < |ts|
  {
    ts[i].term == term && PluralForms(ts[i]).Some?
  }

  /** The dictionary has a key for exactly the terms of translations with at least one non-empty plural form. */
  lemma {:induction false} PluralsDictKeys(ts: seq<Translation>, term: string)
    ensures term in PluralsDict(ts) <==> exists i :: 0 <= i < |ts| && Contributes(ts, i, term)
    decreases |ts|
  {
    if ts != [] {
      var init := ts[..|ts| - 1];
      var last := |ts| - 1;
      PluralsDictKeys(init, term);
      assert forall i :: 0 <= i < |init| ==> init[i] == ts[i];
      if Contributes(ts, last, term) {
        assert term in PluralsDict(ts);
      } else {
        assert term in PluralsDict(ts) <==> term in PluralsDict(init);
        if term in PluralsDict(ts) {
          var i :| 0 <= i < |init| && Contributes(init, i, term);
          assert Contributes(ts, i, term);
        } else {
          forall i | 0 <= i < |ts| ensures !Contributes(ts, i, term) {
            if i < last { assert !Contributes(init, i, term); }
          }
        }
      }
    }
  }

  /** The item of a term is built from the LAST translation of that term that contributes one. */
  lemma {:induction false} PluralsDictLastWins(ts: seq<Translation>, term: string, i: int)
    requires 0 <= i < |ts| && Contributes(ts, i, term)
    requires forall j :: i < j < |ts| ==> !Contributes(ts, j, term)
    ensures term in PluralsDict(ts)
    ensures PluralsDict(ts)[term] == PluralItem(PluralForms(ts[i]).value)
    decreases |ts|
  {
    var init := ts[..|ts| - 1];
    if i < |ts| - 1 {
      assert init[i] == ts[i];
      forall j | i < j < |init| ensures !Contributes(init, j, term) {
        assert init[j] == ts[j] && !Contributes(ts, j, term);
      }
      assert !Contributes(ts, |ts| - 1, term);
      PluralsDictLastWins(init, term, i);
    }
  }

  /**
    An item holds the format key, and an `items` dictionary with every non-empty
    form under its category and the two markers; an empty form is left out.
  */
  lemma PluralItemContents(plurals: map<string, string>, category: string)
    requires NonEmptyForms(plurals) != map[]
    requires category != SpecTypeKey && category != ValueTypeKey
    ensures PluralItem(NonEmptyForms(plurals)).entries.Keys == {FormatKey, ItemsKey}
    ensures PluralItem(NonEmptyForms(plurals)).entries[FormatKey] == PString(FormatValue)
    ensures var items := PluralItem(NonEmptyForms(plurals)).entries[ItemsKey].entries;
      && items[SpecTypeKey] == PString(PluralRuleType)
      && items[ValueTypeKey] == PString(IntegerValueType)
      && (category in items <==> category in plurals && plurals[category] != "")
      && (category in items ==> items[category] == PString(plurals[category]))
  {
  }

  /** The loop over the sorted plural categories that keeps the non-empty forms. */
  method CollectForms(plurals: map<string, string>) returns (forms: map<string, string>)
    ensures forms == NonEmptyForms(plurals)
  {
    forms := map[];
    var remaining := plurals.Keys;
    while remaining != {}
      invariant remaining <= plurals.Keys
      invariant forms == map k | k in plurals.Keys - remaining && plurals[k] != "" :: plurals[k]
      decreases |remaining|
    {
      StringOrder.LeastExists(remaining);
      var key :| StringOrder.IsLeast(key, remaining);
      if plurals[key] != "" {
        forms := forms[key := plurals[key]];
      }
      remaining := remaining - {key};
    }
  }

  /** The loop of `writeFile` that fills the `.stringsdict` dictionary. */
  method BuildPluralsDict(ts: seq<Translation>) returns (outputDict: map<string, PlistValue>)
    ensures outputDict == PluralsDict(ts)
  {
    outputDict := map[];
    for i := 0 to |ts|
      invariant outputDict == PluralsDict(ts[..i])
    {
      assert ts[..i + 1][..i] == ts[..i];
      match ts[i].translated {
        case HasDefinition(_) =>
        case HasPlurals(plurals) =>
          var pluralsDict := CollectForms(plurals);
          if |pluralsDict| > 0 {
            var items := (map k | k in pluralsDict :: PString(pluralsDict[k]))
              [SpecTypeKey := PString(PluralRuleType)]
              [ValueTypeKey := PString(IntegerValueType)];
            var itemDict := map[FormatKey := PString(FormatValue), ItemsKey := PDict(items)];
            outputDict := outputDict[ts[i].term := PDict(itemDict)];
          } else {
            assert pluralsDict == map[];
          }
      }
    }
    assert ts[..|ts|] == ts;
  }

  // -------------------------------------------------------------- writeFile

  datatype FileContents = StringsTable(text: string) | PluralDictionary(entries: map<string, PlistValue>)

  datatype FileWrite = FileWrite(path: string, contents: FileContents)

  /**
    What the file system does: folders that do not exist and cannot be created,
    and files whose write fails.
  */
  datatype FileSystem = FileSystem(failingFolders: set<string>, failingFiles: set<string>)

  datatype WriteError = FolderCreationFailed(folder: string) | WriteFailed(path: string)

  /** The files written, in order, and the error thrown, if any. */
  datatype WriteOutcome = WriteOutcome(written: seq<FileWrite>, error: Option<WriteError>)

  /** The path of the `.strings` file of a context whose name without extension is `justName`. */
  function StringsFilePath(folder: string, justName: string): string {
    AppendingPathComponent(folder, justName + ".strings")
  }

  function StringsdictPath(folder: string, justName: string): string {
    AppendingPathComponent(folder, justName + ".stringsdict")
  }

  function StringsWrites(ts: seq<Translation>, path: string): seq<FileWrite> {
    if StringsText(ts) != "" then [FileWrite(path, StringsTable(StringsText(ts)))] else []
  }

  /** A failed property-list write is not reported: the file is just not there. */
  function StringsdictWrites(ts: seq<Translation>, path: string, fs: FileSystem): seq<FileWrite> {
    if PluralsDict(ts) != map[] && path !in fs.failingFiles then [FileWrite(path, PluralDictionary(PluralsDict(ts)))] else []
  }

  /** Writing the two files once the folder is there: a failed `.strings` write throws before the plurals are written. */
  function TablesOutcome(justName: string, ts: seq<Translation>, folder: string, fs: FileSystem): WriteOutcome {
    if StringsText(ts) != "" && StringsFilePath(folder, justName) in fs.failingFiles then
      WriteOutcome([], Some(WriteFailed(StringsFilePath(folder, justName))))
    else
      WriteOutcome(StringsWrites(ts, StringsFilePath(folder, justName)) + StringsdictWrites(ts, StringsdictPath(folder, justName), fs), None)
  }

  /** The effect of `writeFile(name:to:)` for one context. */
  function WriteFileOutcome(name: string, ts: seq<Translation>, folder: string, fs: FileSystem): WriteOutcome {
    var fileName := LastPathComponent(name);
    if PathExtension(fileName) != "strings" then WriteOutcome([], None)
    else if folder in fs.failingFolders then WriteOutcome([], Some(FolderCreationFailed(folder)))
    else TablesOutcome(DeletingPathExtension(fileName), ts, folder, fs)
  }

  /** `Collection.writeFile(name:to:)` */
  method WriteFile(name: string, ts: seq<Translation>, folder: string, fs: FileSystem) returns (out: WriteOutcome)
    ensures out == WriteFileOutcome(name, ts, folder, fs)
  {
    var fileName := LastPathComponent(name);
    if PathExtension(fileName) != "strings" {
      return WriteOutcome([], None);
    }
    if folder in fs.failingFolders {
      return WriteOutcome([], Some(FolderCreationFailed(folder)));
    }
    var justName := DeletingPathExtension(fileName);
    out := WriteTables(justName, ts, folder, fs);
  }

  /** The part of `writeFile` after the folder exists: the `.strings` text, then the plural dictionary. */
  method WriteTables(justName: string, ts: seq<Translation>, folder: string, fs: FileSystem) returns (out: WriteOutcome)
    ensures out == TablesOutcome(justName, ts, folder, fs)
  {
    var written: seq<FileWrite> := [];
    var tmpStr := BuildStringsText(ts);
    var outputPath := AppendingPathComponent(folder, justName + ".strings");
    if tmpStr != "" {
      if outputPath in fs.failingFiles {
        return WriteOutcome([], Some(WriteFailed(outputPath)));
      }
      written := written + [FileWrite(outputPath, StringsTable(tmpStr))];
    }
    assert written == StringsWrites(ts, outputPath);
    var outputDict := BuildPluralsDict(ts);
    if outputDict == map[] {
      return WriteOutcome(written, None);
    }
    var dictPath := AppendingPathComponent(folder, justName + ".stringsdict");
    if dictPath !in fs.failingFiles {
      written := written + [FileWrite(dictPath, PluralDictionary(outputDict))];
    }
    out := WriteOutcome(written, None);
  }

  /** A context whose last path component does not have the extension "strings" produces nothing. */
  lemma NonStringsContextWritesNothing(name: string, ts: seq<Translation>, folder: string, fs: FileSystem)
    requires PathExtension(LastPathComponent(name)) != "strings"
    ensures WriteFileOutcome(name, ts, folder, fs) == WriteOutcome([], None)
  {
  }

  /** Once the folder is there, the `.strings` file is written exactly when the text is not empty and its write succeeds. */
  lemma TablesStringsWrite(justName: string, ts: seq<Translation>, folder: string, fs: FileSystem)
    ensures var out := TablesOutcome(justName, ts, folder, fs);
      (exists w :: w in out.written && w.contents.StringsTable?) <==>
        StringsText(ts) != "" && StringsFilePath(folder, justName) !in fs.failingFiles
    ensures var out := TablesOutcome(justName, ts, folder, fs);
      forall w :: w in out.written && w.contents.StringsTable? ==>
        w == FileWrite(StringsFilePath(folder, justName), StringsTable(StringsText(ts)))
  {
    var out := TablesOutcome(justName, ts, folder, fs);
    if StringsText(ts) != "" && StringsFilePath(folder, justName) !in fs.failingFiles {
      assert out.written[0] in out.written;
    }
  }

  /**
    Once the folder is there, the only error is a non-empty `.strings` text that
    cannot be written; it is thrown before anything is written, and a failing
    plural-dictionary write throws nothing.
  */
  lemma TablesErrors(justName: string, ts: seq<Translation>, folder: string, fs: FileSystem)
    ensures var out := TablesOutcome(justName, ts, folder, fs);
      out.error.Some? <==> StringsText(ts) != "" && StringsFilePath(folder, justName) in fs.failingFiles
    ensures var out := TablesOutcome(justName, ts, folder, fs);
      out.error.Some? ==> out.error == Some(WriteFailed(StringsFilePath(folder, justName))) && out.written == []
  {
  }

  /**
    The errors `writeFile` throws: the folder that cannot be created, else the
    `.strings` file that cannot be written. A context that is not a `.strings`
    file throws nothing, nor does a failing `.stringsdict` write; whatever is
    thrown, nothing has been written.
  */
  lemma WriteFileErrors(name: string, ts: seq<Translation>, folder: string, fs: FileSystem)
    ensures var out := WriteFileOutcome(name, ts, folder, fs);
      var fileName := LastPathComponent(name);
      out.error.Some? <==>
        && PathExtension(fileName) == "strings"
        && (folder in fs.failingFolders || (StringsText(ts) != "" && AppendingPathComponent(folder, fileName) in fs.failingFiles))
    ensures var out := WriteFileOutcome(name, ts, folder, fs);
      PathExtension(LastPathComponent(name)) == "strings" && folder in fs.failingFolders ==>
        out.error == Some(FolderCreationFailed(folder))
    ensures var out := WriteFileOutcome(name, ts, folder, fs);
      var fileName := LastPathComponent(name);
      PathExtension(fileName) == "strings" && folder !in fs.failingFolders && out.error.Some? ==>
        out.error == Some(WriteFailed(AppendingPathComponent(folder, fileName)))
    ensures var out := WriteFileOutcome(name, ts, folder, fs);
      out.error.Some? ==> out.written == []
  {
    var fileName := LastPathComponent(name);
    if PathExtension(fileName) == "strings" && folder !in fs.failingFolders {
      StringsNamePath(folder, fileName);
      TablesErrors(DeletingPathExtension(fileName), ts, folder, fs);
    }
  }

  /**
    A `.strings` file is written exactly when the context is a ".strings" file, its
    folder is there, and some translation has a value; it then carries the
    context's own file name and the table text.
  */
  lemma StringsFileWritten(name: string, ts: seq<Translation>, folder: string, fs: FileSystem)
    ensures var out := WriteFileOutcome(name, ts, folder, fs);
      (exists w :: w in out.written && w.contents.StringsTable?) <==>
        && PathExtension(LastPathComponent(name)) == "strings"
        && folder !in fs.failingFolders
        && (exists i :: 0 <= i < |ts| && DisplayValue(ts[i].translated).Some?)
        && AppendingPathComponent(folder, LastPathComponent(name)) !in fs.failingFiles
    ensures var out := WriteFileOutcome(name, ts, folder, fs);
      forall w :: w in out.written && w.contents.StringsTable? ==>
        w == FileWrite(AppendingPathComponent(folder, LastPathComponent(name)), StringsTable(StringsText(ts)))
  {
    var fileName := LastPathComponent(name);
    StringsTextEmptyIff(ts);
    if PathExtension(fileName) == "strings" && folder !in fs.failingFolders {
      var justName := DeletingPathExtension(fileName);
      StringsNamePath(folder, fileName);
      assert WriteFileOutcome(name, ts, folder, fs) == TablesOutcome(justName, ts, folder, fs);
      TablesStringsWrite(justName, ts, folder, fs);
    } else {
      assert WriteFileOutcome(name, ts, folder, fs).written == [];
    }
  }

  /**
    A `.stringsdict` file is written exactly when the context is a ".strings"
    file, its folder is there, the `.strings` write (if there is one) succeeds,
    the plural dictionary is not empty and its own write succeeds; it is then
    the last file written, named `<base>.stringsdict`, and nothing is thrown.
  */
  lemma StringsdictFileWritten(name: string, ts: seq<Translation>, folder: string, fs: FileSystem)
    ensures var out := WriteFileOutcome(name, ts, folder, fs);
      var base := DeletingPathExtension(LastPathComponent(name));
      (exists w :: w in out.written && w.contents.PluralDictionary?) <==>
        && PathExtension(LastPathComponent(name)) == "strings"
        && folder !in fs.failingFolders
        && (StringsText(ts) == "" || StringsFilePath(folder, base) !in fs.failingFiles)
        && PluralsDict(ts) != map[]
        && StringsdictPath(folder, base) !in fs.failingFiles
    ensures var out := WriteFileOutcome(name, ts, folder, fs);
      var base := DeletingPathExtension(LastPathComponent(name));
      (&& PathExtension(LastPathComponent(name)) == "strings"
       && folder !in fs.failingFolders
       && (StringsText(ts) == "" || StringsFilePath(folder, base) !in fs.failingFiles)
       && PluralsDict(ts) != map[]
       && StringsdictPath(folder, base) !in fs.failingFiles) ==>
        && out.error.None? && |out.written| > 0
        && out.written[|out.written| - 1] == FileWrite(StringsdictPath(folder, base), PluralDictionary(PluralsDict(ts)))
  {
    var out := WriteFileOutcome(name, ts, folder, fs);
    var fileName := LastPathComponent(name);
    if PathExtension(fileName) == "strings" && folder !in fs.failingFolders {
      var base := DeletingPathExtension(fileName);
      assert out == TablesOutcome(base, ts, folder, fs);
      var strings := StringsWrites(ts, StringsFilePath(folder, base));
      assert forall k :: 0 <= k < |strings| ==> strings[k].contents.StringsTable?;
      if out.error.None? && PluralsDict(ts) != map[] && StringsdictPath(folder, base) !in fs.failingFiles {
        assert out.written[|out.written| - 1] in out.written;
      }
    } else {
      assert out.written == [];
    }
  }

  /** The `.strings` file of a context named `<base>.strings` is that very name inside the folder. */
  lemma StringsNamePath(folder: string, fileName: string)
    requires PathExtension(fileName) == "strings"
    ensures StringsFilePath(folder, DeletingPathExtension(fileName)) == AppendingPathComponent(folder, fileName)
  {
    BaseAndExtension(fileName, "strings");
    DottedStrings();
  }

  /** The extension with its dot, as `StringsFilePath` appends it. */
  lemma DottedStrings()
    ensures "." + "strings" == ".strings"
  {
  }

  /** Once the folder is there, a plural dictionary can only be the last file written, and only when nothing was thrown. */
  lemma TablesStringsdictWrite(justName: string, ts: seq<Translation>, folder: string, fs: FileSystem)
    ensures var out := TablesOutcome(justName, ts, folder, fs);
      forall k :: 0 <= k < |out.written| && out.written[k].contents.PluralDictionary? ==>
        && out.error.None? && PluralsDict(ts) != map[]
        && out.written[k].contents.entries == PluralsDict(ts) && k == |out.written| - 1
  {
    var strings := StringsWrites(ts, StringsFilePath(folder, justName));
    assert forall k :: 0 <= k < |strings| ==> strings[k].contents.StringsTable?;
  }

  /**
    A `.stringsdict` file is written only when the call throws nothing and some
    term has a non-empty plural form; it holds the plural dictionary and comes
    after the `.strings` file.
  */
  lemma StringsdictWritten(name: string, ts: seq<Translation>, folder: string, fs: FileSystem)
    ensures var out := WriteFileOutcome(name, ts, folder, fs);
      (exists w :: w in out.written && w.contents.PluralDictionary?) ==>
        && out.error.None?
        && exists i :: 0 <= i < |ts| && PluralForms(ts[i]).Some?
    ensures var out := WriteFileOutcome(name, ts, folder, fs);
      forall k :: 0 <= k < |out.written| && out.written[k].contents.PluralDictionary? ==>
        out.written[k].contents.entries == PluralsDict(ts) && k == |out.written| - 1
  {
    var out := WriteFileOutcome(name, ts, folder, fs);
    var fileName := LastPathComponent(name);
    if PathExtension(fileName) == "strings" && folder !in fs.failingFolders {
      var justName := DeletingPathExtension(fileName);
      assert out == TablesOutcome(justName, ts, folder, fs);
      TablesStringsdictWrite(justName, ts, folder, fs);
      if exists w :: w in out.written && w.contents.PluralDictionary? {
        var w :| w in out.written && w.contents.PluralDictionary?;
        var k :| 0 <= k < |out.written| && out.written[k] == w;
        var term :| term in PluralsDict(ts);
        PluralsDictKeys(ts, term);
      }
    }
  }
}
