/**
  `processJSON` (Tool/Source/Functions.swift): the exported records of one
  language are decoded into translations, grouped by context in input order,
  and each group is written with `writeFile`, contexts in ascending order,
  the first thrown error stopping the rest. Also the choice of the export
  folder and the language-code rewrite of the same file.
*/
module Processing {
  import opened Basics
  import opened Json
  import opened Paths
  import opened StringOrder
  import opened Translations

  // ---------------------------------------------------------------- decoding

  /** A decoded record: the context it belongs to and its translation. */
  datatype Record = Record(context: string, translation: Translation)

  /**
    The definition of a record: a string is a single definition, a dictionary of
    strings the plural forms, anything else (or nothing) no definition.
  */
  function Classify(definition: Option<Json>): (r: TranslatedTerm)
    ensures r.HasDefinition? && r.definition.Some? <==> definition.Some? && definition.value.JString?
    ensures r.HasDefinition? && r.definition.Some? ==> definition.value == JString(r.definition.value)
    ensures r.HasPlurals? <==> definition.Some? && definition.value.JObject? && AllStrings(definition.value.fields)
    ensures r.HasPlurals? ==> r.plurals.Keys == definition.value.fields.Keys
    ensures r.HasPlurals? ==> forall k :: k in r.plurals ==> definition.value.fields[k] == JString(r.plurals[k])
  {
    match AsString(definition)
    case Some(single) => HasDefinition(Some(single))
    case None =>
      match AsStringMap(definition)
      case Some(plurals) => HasPlurals(plurals)
      case None => HasDefinition(None)
  }

  /** One record; `None` when `term` or `context` is not a string (the precondition failure). */
  function DecodeRecord(d: map<string, Json>): (r: Option<Record>)
    ensures r.None? <==> !("term" in d && d["term"].JString? && "context" in d && d["context"].JString?)
    ensures r.Some? ==> d["term"] == JString(r.value.translation.term) && d["context"] == JString(r.value.context)
    ensures r.Some? ==> r.value.translation.translated == Classify(Lookup(d, "definition"))
    ensures r.Some? ==> (r.value.translation.comment.Some? <==> "comment" in d && d["comment"].JString?)
    ensures r.Some? && r.value.translation.comment.Some? ==> d["comment"] == JString(r.value.translation.comment.value)
  {
    match (AsString(Lookup(d, "term")), AsString(Lookup(d, "context")))
    case (Some(term), Some(context)) =>
      var comment := AsString(Lookup(d, "comment"));
      Some(Record(context, Translation(comment, term, Classify(Lookup(d, "definition")))))
    case _ => None
  }

  /** The records of the export: an array of dictionaries, anything else counting as no records. */
  function Records(top: Json): (r: seq<map<string, Json>>)
    ensures !(top.JArray? && AllObjects(top.items)) ==> r == []
    ensures top.JArray? && AllObjects(top.items) ==>
      |r| == |top.items| && forall i :: 0 <= i < |r| ==> top.items[i] == JObject(r[i])
  {
    AsObjectArray(Some(top)).GetOr([])
  }

  /** All records decoded in order, or `None` if any one of them traps. */
  function DecodeAll(ds: seq<map<string, Json>>): (r: Option<seq<Record>>)
    ensures r.None? <==> exists i :: 0 <= i < |ds| && DecodeRecord(ds[i]).None?
    ensures r.Some? ==> |r.value| == |ds| && forall i :: 0 <= i < |ds| ==> DecodeRecord(ds[i]) == Some(r.value[i])
    decreases |ds|
  {
    if ds == [] then Some([]) else
      var init := ds[..|ds| - 1];
      assert forall i :: 0 <= i < |init| ==> init[i] == ds[i];
      match (DecodeAll(init), DecodeRecord(ds[|ds| - 1]))
      case (Some(rs), Some(r)) => Some(rs + [r])
      case _ => None
  }

  // ---------------------------------------------------------------- grouping

  /** The dictionary of contexts: each record appended to the list of its context. */
  function Grouped(rs: seq<Record>): (r: map<string, seq<Translation>>)
    ensures forall c :: c in r ==> r[c] != []
    decreases |rs|
  {
    if rs == [] then map[] else
      var groups := Grouped(rs[..|rs| - 1]);
      var r := rs[|rs| - 1];
      if r.context in groups then groups[r.context := groups[r.context] + [r.translation]]
      else groups[r.context := [r.translation]]
  }

  /** The translations of the records of context `c`, in input order. */
  function Group(rs: seq<Record>, c: string): seq<Translation>
    decreases |rs|
  {
    if rs == [] then [] else
      Group(rs[..|rs| - 1], c) + (if rs[|rs| - 1].context == c then [rs[|rs| - 1].translation] else [])
  }

  /**
    The dictionary has a list for exactly the contexts that occur, and that list
    holds the translations of that context's records in input order.
  */
  lemma {:induction false} GroupedIsGroup(rs: seq<Record>, c: string)
    ensures c in Grouped(rs) <==> exists i :: 0 <= i < |rs| && rs[i].context == c
    ensures c in Grouped(rs) ==> Grouped(rs)[c] == Group(rs, c)
    ensures c !in Grouped(rs) ==> Group(rs, c) == []
    decreases |rs|
  {
    if rs != [] {
      var init := rs[..|rs| - 1];
      GroupedIsGroup(init, c);
      assert forall i :: 0 <= i < |init| ==> init[i] == rs[i];
      if c in Grouped(init) {
        var i :| 0 <= i < |init| && init[i].context == c;
        assert rs[i].context == c;
      }
    }
  }

  /** Grouping keeps order: the group of a concatenation is the concatenation of the groups. */
  lemma {:induction false} GroupAppend(a: seq<Record>, b: seq<Record>, c: string)
    ensures Group(a + b, c) == Group(a, c) + Group(b, c)
    decreases |b|
  {
    if b == [] {
      assert a + b == a;
    } else {
      var b' := b[..|b| - 1];
      assert (a + b)[..|a + b| - 1] == a + b';
      GroupAppend(a, b', c);
    }
  }

  predicate NoDuplicates(cs: seq<string>) {
    forall i, j :: 0 <= i < j < |cs| ==> cs[i] != cs[j]
  }

  /** The sizes of the groups of the contexts `cs`, added up. */
  function GroupSizes(rs: seq<Record>, cs: seq<string>): nat
    decreases |cs|
  {
    if cs == [] then 0 else |Group(rs, cs[0])| + GroupSizes(rs, cs[1..])
  }

  function Occurrences(cs: seq<string>, c: string): nat
    decreases |cs|
  {
    if cs == [] then 0 else (if cs[0] == c then 1 else 0) + Occurrences(cs[1..], c)
  }

  lemma {:induction false} OccursOnce(cs: seq<string>, c: string)
    requires NoDuplicates(cs) && c in cs
    ensures Occurrences(cs, c) == 1
    decreases |cs|
  {
    if cs[0] == c {
      OccursNever(cs[1..], c);
    } else {
      OccursOnce(cs[1..], c);
    }
  }

  lemma {:induction false} OccursNever(cs: seq<string>, c: string)
    requires c !in cs
    ensures Occurrences(cs, c) == 0
    decreases |cs|
  {
    if cs != [] {
      OccursNever(cs[1..], c);
    }
  }

  lemma {:induction false} GroupSizesSnoc(rs: seq<Record>, r: Record, cs: seq<string>)
    ensures GroupSizes(rs + [r], cs) == GroupSizes(rs, cs) + Occurrences(cs, r.context)
    decreases |cs|
  {
    if cs != [] {
      assert (rs + [r])[..|rs|] == rs;
      GroupSizesSnoc(rs, r, cs[1..]);
    }
  }

  /**
    Every record lands in exactly one group: over any list of distinct contexts
    that includes every record's context, the group sizes add up to the number
    of records.
  */
  lemma {:induction false} EveryRecordInOneGroup(rs: seq<Record>, cs: seq<string>)
    requires NoDuplicates(cs)
    requires forall i :: 0 <= i < |rs| ==> rs[i].context in cs
    ensures GroupSizes(rs, cs) == |rs|
    decreases |rs|
  {
    if rs == [] {
      EmptyGroupSizes(cs);
    } else {
      var init := rs[..|rs| - 1];
      var r := rs[|rs| - 1];
      assert init + [r] == rs;
      assert forall i :: 0 <= i < |init| ==> init[i] == rs[i];
      EveryRecordInOneGroup(init, cs);
      GroupSizesSnoc(init, r, cs);
      OccursOnce(cs, r.context);
    }
  }

  lemma {:induction false} EmptyGroupSizes(cs: seq<string>)
    ensures GroupSizes([], cs) == 0
    decreases |cs|
  {
    if cs != [] {
      EmptyGroupSizes(cs[1..]);
    }
  }

  /** The loop of `processJSON` that decodes the records and fills the dictionary of contexts. */
  method DecodeAndGroup(ds: seq<map<string, Json>>) returns (contexts: Option<map<string, seq<Translation>>>)
    ensures contexts.None? <==> exists i :: 0 <= i < |ds| && DecodeRecord(ds[i]).None?
    ensures contexts.Some? ==> contexts.value == Grouped(DecodeAll(ds).value)
  {
    var groups: map<string, seq<Translation>> := map[];
    for i := 0 to |ds|
      invariant DecodeAll(ds[..i]).Some?
      invariant groups == Grouped(DecodeAll(ds[..i]).value)
    {
      assert ds[..i + 1][..i] == ds[..i];
      var record := DecodeRecord(ds[i]);
      if record.None? {
        assert DecodeAll(ds).None?;
        return None;
      }
      ghost var rs := DecodeAll(ds[..i]).value;
      assert DecodeAll(ds[..i + 1]).value == rs + [record.value];
      assert (rs + [record.value])[..|rs|] == rs;
      var context := record.value.context;
      if context in groups {
        groups := groups[context := groups[context] + [record.value.translation]];
      } else {
        groups := groups[context := [record.value.translation]];
      }
    }
    assert ds[..|ds|] == ds;
    contexts := Some(groups);
  }

  // ----------------------------------------------------------------- writing

  /** What `processJSON` does: trap while decoding, or write files until the first error. */
  datatype ProcessOutcome = Trapped | Finished(written: seq<FileWrite>, error: Option<WriteError>)

  /** `writeFile` for the contexts `ks` one after another, stopping at the first thrown error. */
  function WriteGroups(g: map<string, seq<Translation>>, ks: seq<string>, folder: string, fs: FileSystem): (r: WriteOutcome)
    requires forall k :: k in ks ==> k in g
    ensures r.error.None? <==> forall i :: 0 <= i < |ks| ==> WriteFileOutcome(ks[i], g[ks[i]], folder, fs).error.None?
    decreases |ks|
  {
    if ks == [] then WriteOutcome([], None) else
      var first := WriteFileOutcome(ks[0], g[ks[0]], folder, fs);
      if first.error.Some? then first else
        var rest := WriteGroups(g, ks[1..], folder, fs);
        assert forall i :: 0 < i < |ks| ==> ks[i] == ks[1..][i - 1];
        WriteOutcome(first.written + rest.written, rest.error)
  }

  /**
    The error of a run is the error of one context, and every context before it
    threw nothing.
  */
  lemma {:induction false} WriteGroupsFirstError(g: map<string, seq<Translation>>, ks: seq<string>, folder: string, fs: FileSystem)
    requires forall k :: k in ks ==> k in g
    ensures WriteGroups(g, ks, folder, fs).error.Some? ==>
      exists i :: 0 <= i < |ks|
        && WriteFileOutcome(ks[i], g[ks[i]], folder, fs).error == WriteGroups(g, ks, folder, fs).error
        && forall j :: 0 <= j < i ==> WriteFileOutcome(ks[j], g[ks[j]], folder, fs).error.None?
    decreases |ks|
  {
    if ks != [] {
      var first := WriteFileOutcome(ks[0], g[ks[0]], folder, fs);
      if first.error.Some? {
        assert WriteGroups(g, ks, folder, fs).error == first.error;
      } else if WriteGroups(g, ks, folder, fs).error.Some? {
        var tail := ks[1..];
        WriteGroupsFirstError(g, tail, folder, fs);
        var i :| 0 <= i < |tail|
          && WriteFileOutcome(tail[i], g[tail[i]], folder, fs).error == WriteGroups(g, tail, folder, fs).error
          && forall j :: 0 <= j < i ==> WriteFileOutcome(tail[j], g[tail[j]], folder, fs).error.None?;
        assert tail[i] == ks[i + 1];
        forall j | 0 <= j < i + 1 ensures WriteFileOutcome(ks[j], g[ks[j]], folder, fs).error.None? {
          if j > 0 { assert ks[j] == tail[j - 1]; }
        }
      }
    }
  }

  /** The contexts of `keys` written in ascending order. */
  ghost function WriteInOrder(g: map<string, seq<Translation>>, keys: set<string>, folder: string, fs: FileSystem): WriteOutcome
    requires keys <= g.Keys
  {
    InOrderSorted(keys);
    WriteGroups(g, InOrder(keys), folder, fs)
  }

  /** The effect of `processJSON(data:outputFolderURL:)` on an already decoded export. */
  ghost function ProcessJSONOutcome(top: Json, folder: string, fs: FileSystem): ProcessOutcome {
    match DecodeAll(Records(top))
    case None => Trapped
    case Some(rs) =>
      var o := WriteInOrder(Grouped(rs), Grouped(rs).Keys, folder, fs);
      Finished(o.written, o.error)
  }

  function Prepend(written: seq<FileWrite>, o: WriteOutcome): WriteOutcome {
    WriteOutcome(written + o.written, o.error)
  }

  /** Writing the least remaining context first and then the others in order is writing them all in order. */
  lemma WriteInOrderStep(g: map<string, seq<Translation>>, keys: set<string>, key: string, folder: string, fs: FileSystem)
    requires keys <= g.Keys && IsLeast(key, keys)
    ensures var first := WriteFileOutcome(key, g[key], folder, fs);
      WriteInOrder(g, keys, folder, fs) ==
        if first.error.Some? then first else Prepend(first.written, WriteInOrder(g, keys - {key}, folder, fs))
  {
    LeastUnique(key, Least(keys), keys);
    assert InOrder(keys) == [key] + InOrder(keys - {key});
    assert InOrder(keys)[1..] == InOrder(keys - {key});
  }

  /** `processJSON`: decode and group, then write the contexts in sorted order. */
  method ProcessJSON(top: Json, folder: string, fs: FileSystem) returns (out: ProcessOutcome)
    ensures out == ProcessJSONOutcome(top, folder, fs)
  {
    var translations := Records(top);
    var grouped := DecodeAndGroup(translations);
    if grouped.None? {
      return Trapped;
    }
    var o := WriteContexts(grouped.value, folder, fs);
    out := Finished(o.written, o.error);
  }

  /** One turn of the loop over the sorted contexts: write the least remaining one and stop at its error. */
  lemma WriteContextsStep(g: map<string, seq<Translation>>, remaining: set<string>, key: string, written: seq<FileWrite>,
                          folder: string, fs: FileSystem)
    requires remaining <= g.Keys && IsLeast(key, remaining)
    ensures var o := WriteFileOutcome(key, g[key], folder, fs);
      o.error.Some? ==> Prepend(written, WriteInOrder(g, remaining, folder, fs)) == WriteOutcome(written + o.written, o.error)
    ensures var o := WriteFileOutcome(key, g[key], folder, fs);
      o.error.None? ==>
        Prepend(written, WriteInOrder(g, remaining, folder, fs)) == Prepend(written + o.written, WriteInOrder(g, remaining - {key}, folder, fs))
  {
    var o := WriteFileOutcome(key, g[key], folder, fs);
    WriteInOrderStep(g, remaining, key, folder, fs);
    if o.error.None? {
      PrependPrepend(written, o.written, WriteInOrder(g, remaining - {key}, folder, fs));
    }
  }

  lemma PrependPrepend(a: seq<FileWrite>, b: seq<FileWrite>, o: WriteOutcome)
    ensures Prepend(a, Prepend(b, o)) == Prepend(a + b, o)
  {
    assert a + (b + o.written) == (a + b) + o.written;
  }

  /** Nothing is left to write once every context is done. */
  lemma WriteInOrderEmpty(g: map<string, seq<Translation>>, folder: string, fs: FileSystem)
    ensures WriteInOrder(g, {}, folder, fs) == WriteOutcome([], None)
  {
    assert InOrder({}) == [];
  }

  /** The loop of `processJSON` over `contexts.keys.sorted()`. */
  method WriteContexts(contexts: map<string, seq<Translation>>, folder: string, fs: FileSystem) returns (out: WriteOutcome)
    ensures out == WriteInOrder(contexts, contexts.Keys, folder, fs)
  {
    ghost var all := WriteInOrder(contexts, contexts.Keys, folder, fs);
    var written: seq<FileWrite> := [];
    var remaining := contexts.Keys;
    while remaining != {}
      invariant remaining <= contexts.Keys
      invariant all == Prepend(written, WriteInOrder(contexts, remaining, folder, fs))
      decreases |remaining|
    {
      LeastExists(remaining);
      var key :| key in remaining && IsLeast(key, remaining);
      var o := WriteFile(key, contexts[key], folder, fs);
      WriteContextsStep(contexts, remaining, key, written, folder, fs);
      if o.error.Some? {
        return WriteOutcome(written + o.written, o.error);
      }
      written := written + o.written;
      remaining := remaining - {key};
    }
    WriteInOrderEmpty(contexts, folder, fs);
    out := WriteOutcome(written, None);
  }

  /** A record without a string term or context traps before anything is written. */
  lemma ProcessTrapsIff(top: Json, folder: string, fs: FileSystem)
    ensures ProcessJSONOutcome(top, folder, fs).Trapped? <==>
      exists i :: 0 <= i < |Records(top)| && DecodeRecord(Records(top)[i]).None?
  {
  }

  /** A top-level value that is not an array of dictionaries writes nothing and throws nothing. */
  lemma NonArrayWritesNothing(top: Json, folder: string, fs: FileSystem)
    requires !(top.JArray? && AllObjects(top.items))
    ensures ProcessJSONOutcome(top, folder, fs) == Finished([], None)
  {
    assert Records(top) == [];
    assert DecodeAll([]) == Some([]);
    assert Grouped([]) == map[];
    assert InOrder({}) == [];
  }

  /**
    An error thrown for one context is the error of the whole call, and every
    context written before it (in ascending order) threw nothing.
  */
  lemma ErrorStopsRemaining(top: Json, folder: string, fs: FileSystem)
    requires ProcessJSONOutcome(top, folder, fs).Finished?
    ensures var rs := DecodeAll(Records(top)).value;
      var g := Grouped(rs);
      var ks := InOrder(g.Keys);
      && StrictlyIncreasing(ks)
      && (forall c :: c in ks <==> c in g)
      && (ProcessJSONOutcome(top, folder, fs).error.Some? ==>
        exists i :: 0 <= i < |ks|
          && WriteFileOutcome(ks[i], g[ks[i]], folder, fs).error == ProcessJSONOutcome(top, folder, fs).error
          && forall j :: 0 <= j < i ==> WriteFileOutcome(ks[j], g[ks[j]], folder, fs).error.None?)
  {
    var g := Grouped(DecodeAll(Records(top)).value);
    InOrderSorted(g.Keys);
    if ProcessJSONOutcome(top, folder, fs).error.Some? {
      WriteGroupsFirstError(g, InOrder(g.Keys), folder, fs);
    }
  }

  // ------------------------------------------------- folder and locale code

  /** `exportFolderURL(settings:)`: the configured folder or "POEditor", made absolute against the working directory. */
  function ExportFolder(outputFolder: Option<string>, cwd: string): (r: string)
    ensures StartsWith(outputFolder.GetOr("POEditor"), "/") ==> r == outputFolder.GetOr("POEditor")
    ensures !StartsWith(outputFolder.GetOr("POEditor"), "/") ==>
      r == AppendingPathComponent(cwd, outputFolder.GetOr("POEditor"))
  {
    var folder := outputFolder.GetOr("POEditor");
    if StartsWith(folder, "/") then folder else AppendingPathComponent(cwd, folder)
  }

  /** With an absolute working directory the export folder is always absolute. */
  lemma ExportFolderAbsolute(outputFolder: Option<string>, cwd: string)
    requires StartsWith(cwd, "/")
    ensures StartsWith(ExportFolder(outputFolder, cwd), "/")
  {
    var r := ExportFolder(outputFolder, cwd);
    if !StartsWith(outputFolder.GetOr("POEditor"), "/") {
      assert r[..1] == r[..|cwd|][..1];
    }
  }

  /** Without a configured folder, "POEditor" inside the working directory. */
  lemma ExportFolderDefault(cwd: string)
    ensures ExportFolder(None, cwd) == AppendingPathComponent(cwd, "POEditor")
  {
    assert "POEditor"[..1][0] == 'P';
  }

  /** The rewrite part of `xCodeLocaleFromPOEditorCode`: the two Chinese codes become their script forms. */
  function LocaleCode(code: string): (r: string)
    ensures code == "zh-CN" ==> r == "zh-Hans"
    ensures code == "zh-TW" ==> r == "zh-Hant"
    ensures code != "zh-CN" && code != "zh-TW" ==> r == code
    ensures r != "zh-CN" && r != "zh-TW"
  {
    if code == "zh-CN" then "zh-Hans"
    else if code == "zh-TW" then "zh-Hant"
    else code
  }

  /** Rewriting a code that was already rewritten changes nothing. */
  lemma LocaleCodeIdempotent(code: string)
    ensures LocaleCode(LocaleCode(code)) == LocaleCode(code)
  {
  }
}
