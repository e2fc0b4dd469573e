/**
  The export loop of the command-line tool (Tool/Source/main.swift): every
  configured language, in sorted order, has its code rewritten for Xcode, its
  export fetched and its records decoded, grouped and written into
  `<xcode>.lproj` inside the "POEditor" folder of the working directory. An
  error is reported and the loop goes on with the next language; a record
  without a term or context, or an export link that is not a URL, stops the
  whole program.
*/
module ToolMain {
  import opened Basics
  import opened Json
  import opened Paths
  import opened StringOrder
  import opened Translations
  import opened Processing

  // ------------------------------------------------------------ locale code

  /** The language-code rewrite of main.swift: four codes are changed, all others kept. */
  function MainLocaleCode(code: string): (r: string)
    ensures code == "zh-CN" ==> r == "zh-Hans"
    ensures code == "zh-TW" ==> r == "zh-Hant"
    ensures code == "en-us" ==> r == "en"
    ensures code == "pt-br" ==> r == "pt-BR"
    ensures code != "zh-CN" && code != "zh-TW" && code != "en-us" && code != "pt-br" ==> r == code
    ensures r != "zh-CN" && r != "zh-TW" && r != "en-us" && r != "pt-br"
  {
    if code == "zh-CN" then "zh-Hans"
    else if code == "zh-TW" then "zh-Hant"
    else if code == "en-us" then "en"
    else if code == "pt-br" then "pt-BR"
    else code
  }

  /** The rewrite of main.swift agrees with the one of Functions.swift except on "en-us" and "pt-br". */
  lemma MainLocaleCodeExtends(code: string)
    ensures code != "en-us" && code != "pt-br" ==> MainLocaleCode(code) == LocaleCode(code)
    ensures MainLocaleCode("en-us") == "en" && MainLocaleCode("pt-br") == "pt-BR"
  {
  }

  /** Rewriting a rewritten code changes nothing. */
  lemma MainLocaleCodeIdempotent(code: string)
    ensures MainLocaleCode(MainLocaleCode(code)) == MainLocaleCode(code)
  {
  }

  // ------------------------------------------------------------ export loop

  /**
    What the export request and the download of its file give for one language
    code: the decoded JSON, the error (of the request or of the download), or the
    crash of the forced conversion of an export link that is not a URL.
  */
  datatype Download = DownloadFailed(reason: string) | Downloaded(json: Json) | DownloadCrashed

  datatype LanguageError = DownloadError(reason: string) | FileError(error: WriteError)

  /** What one language produced: the files written and the error printed, if any. */
  datatype LanguageReport = LanguageReport(code: string, xcode: string, written: seq<FileWrite>, error: Option<LanguageError>)

  /** The languages that were reported, and whether the program trapped after them. */
  datatype ExportRun = ExportRun(reports: seq<LanguageReport>, trapped: bool)

  /** The `.lproj` folder of a language inside the export folder. */
  function LanguageFolder(exportFolder: string, code: string): string {
    AppendingPathComponent(exportFolder, MainLocaleCode(code) + ".lproj")
  }

  /** One language: `None` when fetching or decoding its export traps. */
  ghost function LanguageStep(code: string, exportFolder: string, fetch: string -> Download, fs: FileSystem): Option<LanguageReport> {
    var xcode := MainLocaleCode(code);
    match fetch(code)
    case DownloadCrashed => None
    case DownloadFailed(reason) => Some(LanguageReport(code, xcode, [], Some(DownloadError(reason))))
    case Downloaded(json) =>
      match ProcessJSONOutcome(json, LanguageFolder(exportFolder, code), fs)
      case Trapped => None
      case Finished(written, error) =>
        Some(LanguageReport(code, xcode, written, if error.Some? then Some(FileError(error.value)) else None))
  }

  /** A language's report carries its code and the rewritten code. */
  lemma StepReport(code: string, exportFolder: string, fetch: string -> Download, fs: FileSystem)
    requires LanguageStep(code, exportFolder, fetch, fs).Some?
    ensures LanguageStep(code, exportFolder, fetch, fs).value.code == code
    ensures LanguageStep(code, exportFolder, fetch, fs).value.xcode == MainLocaleCode(code)
  {
  }

  /**
    A language stops the program exactly when its export link is not a URL or a
    record of its export has no string term or context.
  */
  lemma StepTrapsIff(code: string, exportFolder: string, fetch: string -> Download, fs: FileSystem)
    ensures LanguageStep(code, exportFolder, fetch, fs).None? <==>
      || fetch(code).DownloadCrashed?
      || (fetch(code).Downloaded? &&
          exists i :: 0 <= i < |Records(fetch(code).json)| && DecodeRecord(Records(fetch(code).json)[i]).None?)
  {
    if fetch(code).Downloaded? {
      ProcessTrapsIff(fetch(code).json, LanguageFolder(exportFolder, code), fs);
    }
  }

  /** The languages `codes` one after another until one traps. */
  ghost function RunLanguages(codes: seq<string>, exportFolder: string, fetch: string -> Download, fs: FileSystem): ExportRun
    decreases |codes|
  {
    if codes == [] then ExportRun([], false) else
      match LanguageStep(codes[0], exportFolder, fetch, fs)
      case None => ExportRun([], true)
      case Some(report) =>
        var rest := RunLanguages(codes[1..], exportFolder, fetch, fs);
        ExportRun([report] + rest.reports, rest.trapped)
  }

  /** The run is the languages' reports in order, ending either at the first trap or after the last language. */
  lemma {:induction false} RunIsPrefix(codes: seq<string>, exportFolder: string, fetch: string -> Download, fs: FileSystem)
    ensures var run := RunLanguages(codes, exportFolder, fetch, fs);
      && |run.reports| <= |codes|
      && (forall i :: 0 <= i < |run.reports| ==> LanguageStep(codes[i], exportFolder, fetch, fs) == Some(run.reports[i]))
      && (run.trapped ==> |run.reports| < |codes| && LanguageStep(codes[|run.reports|], exportFolder, fetch, fs).None?)
      && (!run.trapped ==> |run.reports| == |codes|)
    decreases |codes|
  {
    if codes != [] {
      var tail := codes[1..];
      RunIsPrefix(tail, exportFolder, fetch, fs);
      var step := LanguageStep(codes[0], exportFolder, fetch, fs);
      if step.Some? {
        var rest := RunLanguages(tail, exportFolder, fetch, fs);
        var run := ExportRun([step.value] + rest.reports, rest.trapped);
        assert RunLanguages(codes, exportFolder, fetch, fs) == run;
        forall i | 0 <= i < |run.reports|
          ensures LanguageStep(codes[i], exportFolder, fetch, fs) == Some(run.reports[i])
        {
          if i > 0 {
            assert codes[i] == tail[i - 1] && run.reports[i] == rest.reports[i - 1];
          }
        }
        if run.trapped {
          assert codes[|run.reports|] == tail[|rest.reports|];
        }
      }
    }
  }

  /**
    Only a trap stops the loop: the run reports each language, in order, up to
    the first one that traps, and all of them when none does.
  */
  lemma RunStopsOnlyAtTrap(codes: seq<string>, exportFolder: string, fetch: string -> Download, fs: FileSystem)
    ensures var run := RunLanguages(codes, exportFolder, fetch, fs);
      && |run.reports| <= |codes|
      && (forall i :: 0 <= i < |run.reports| ==> LanguageStep(codes[i], exportFolder, fetch, fs) == Some(run.reports[i]))
      && (run.trapped <==> exists j :: 0 <= j < |codes| && LanguageStep(codes[j], exportFolder, fetch, fs).None?)
      && (run.trapped ==> LanguageStep(codes[|run.reports|], exportFolder, fetch, fs).None?)
      && (!run.trapped ==> |run.reports| == |codes|)
  {
    RunIsPrefix(codes, exportFolder, fetch, fs);
  }

  /**
    The export folder of main.swift: "POEditor" inside the working directory,
    the same folder as the default of Functions.swift.
  */
  function MainExportFolder(cwd: string): (r: string)
    ensures r == ExportFolder(None, cwd)
    ensures StartsWith(r, cwd) && LastPathComponent(r) == "POEditor"
  {
    ExportFolderDefault(cwd);
    JoinThenLast(cwd, "POEditor");
    AppendingPathComponent(cwd, "POEditor")
  }

  function PrependReports(reports: seq<LanguageReport>, run: ExportRun): ExportRun {
    ExportRun(reports + run.reports, run.trapped)
  }

  /** What a downloaded export gives, once processed into the language's folder. */
  lemma StepOfProcessed(code: string, exportFolder: string, fetch: string -> Download, fs: FileSystem, processed: ProcessOutcome)
    requires fetch(code).Downloaded?
    requires processed == ProcessJSONOutcome(fetch(code).json, LanguageFolder(exportFolder, code), fs)
    ensures processed.Trapped? ==> LanguageStep(code, exportFolder, fetch, fs).None?
    ensures processed.Finished? ==>
      LanguageStep(code, exportFolder, fetch, fs) ==
        Some(LanguageReport(code, MainLocaleCode(code), processed.written,
          if processed.error.Some? then Some(FileError(processed.error.value)) else None))
  {
  }

  /** One pass of the loop of main.swift: rewrite the code, fetch the export, decode, group and write it. */
  method ExportLanguage(code: string, exportFolder: string, fetch: string -> Download, fs: FileSystem) returns (step: Option<LanguageReport>)
    ensures step == LanguageStep(code, exportFolder, fetch, fs)
  {
    var xcode := code;
    if xcode == "zh-CN" {
      xcode := "zh-Hans";
    } else if xcode == "zh-TW" {
      xcode := "zh-Hant";
    } else if xcode == "en-us" {
      xcode := "en";
    } else if xcode == "pt-br" {
      xcode := "pt-BR";
    }
    var outputFolder := AppendingPathComponent(exportFolder, xcode + ".lproj");
    var exportError: Option<LanguageError> := None;
    var written: seq<FileWrite> := [];
    match fetch(code) {
      case DownloadCrashed =>
        return None;
      case DownloadFailed(reason) =>
        exportError := Some(DownloadError(reason));
      case Downloaded(json) =>
        var processed := ProcessJSON(json, outputFolder, fs);
        StepOfProcessed(code, exportFolder, fetch, fs, processed);
        if processed.Trapped? {
          return None;
        }
        written := processed.written;
        if processed.error.Some? {
          exportError := Some(FileError(processed.error.value));
        }
    }
    step := Some(LanguageReport(code, xcode, written, exportError));
  }

  /** The loop of main.swift over `settings.languages.sorted()`. */
  method ExportLanguages(languages: seq<string>, cwd: string, fetch: string -> Download, fs: FileSystem) returns (run: ExportRun)
    ensures run == RunLanguages(Sort(languages), MainExportFolder(cwd), fetch, fs)
  {
    var exportFolder := MainExportFolder(cwd);
    var codes := Sort(languages);
    run := ExportCodes(codes, exportFolder, fetch, fs);
  }

  /** The body of that loop, over codes already sorted and a folder already made. */
  method ExportCodes(codes: seq<string>, exportFolder: string, fetch: string -> Download, fs: FileSystem) returns (run: ExportRun)
    ensures run == RunLanguages(codes, exportFolder, fetch, fs)
  {
    var reports: seq<LanguageReport> := [];
    for i := 0 to |codes|
      invariant RunLanguages(codes, exportFolder, fetch, fs) == PrependReports(reports, RunLanguages(codes[i..], exportFolder, fetch, fs))
    {
      assert codes[i..][0] == codes[i] && codes[i..][1..] == codes[i + 1..];
      var step := ExportLanguage(codes[i], exportFolder, fetch, fs);
      if step.None? {
        return ExportRun(reports, true);
      }
      ghost var rest := RunLanguages(codes[i + 1..], exportFolder, fetch, fs);
      assert reports + ([step.value] + rest.reports) == (reports + [step.value]) + rest.reports;
      reports := reports + [step.value];
    }
    run := ExportRun(reports, false);
  }

  /**
    Languages are exported in ascending order of their codes; when nothing
    traps, every configured language is reported once, with its rewritten code.
  */
  lemma LanguagesInSortedOrder(languages: seq<string>, cwd: string, fetch: string -> Download, fs: FileSystem)
    ensures var run := RunLanguages(Sort(languages), MainExportFolder(cwd), fetch, fs);
      && (forall i, j :: 0 <= i < j < |run.reports| ==> LessEq(run.reports[i].code, run.reports[j].code))
      && (forall i :: 0 <= i < |run.reports| ==> run.reports[i].xcode == MainLocaleCode(run.reports[i].code))
      && (!run.trapped ==>
        && |run.reports| == |languages|
        && multiset(Sort(languages)) == multiset(languages)
        && forall i :: 0 <= i < |run.reports| ==> run.reports[i].code == Sort(languages)[i])
  {
    var codes := Sort(languages);
    var run := RunLanguages(codes, MainExportFolder(cwd), fetch, fs);
    SortSorted(languages);
    RunStopsOnlyAtTrap(codes, MainExportFolder(cwd), fetch, fs);
    forall i | 0 <= i < |run.reports|
      ensures run.reports[i].code == codes[i] && run.reports[i].xcode == MainLocaleCode(codes[i])
    {
      StepReport(codes[i], MainExportFolder(cwd), fetch, fs);
    }
  }
}
