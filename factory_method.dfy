/** The Factory Method script (factory.py): a file processor whose subclass
    chooses the format handler, and whose `run_processing` wraps the
    handler's report in a fixed sentence. */
module FactoryMethod {
  import opened Results

  /** The two concrete products, `JsonFormat` and `XmlFormat`. */
  datatype DataFormat = JsonFormat | XmlFormat

  /** The opening words every handler report starts with. */
  const ProcessingPrefix: string := "Processing '"

  /** The closing words of a handler report, which name the handler. */
  function HandlerSuffix(h: DataFormat): string
  {
    match h
    case JsonFormat => "' using the JSON handler."
    case XmlFormat => "' using the XML handler."
  }

  /** `DataFormat.process`: the status line a handler reports for a file. */
  function Process(h: DataFormat, fileName: string): (r: string)
    ensures |r| == |ProcessingPrefix| + |fileName| + |HandlerSuffix(h)|
    ensures r[..|ProcessingPrefix|] == ProcessingPrefix
    ensures r[|ProcessingPrefix|..|ProcessingPrefix| + |fileName|] == fileName
    ensures r[|ProcessingPrefix| + |fileName|..] == HandlerSuffix(h)
  {
    var r := ProcessingPrefix + fileName + HandlerSuffix(h);
    assert r[..|ProcessingPrefix|] == ProcessingPrefix;
    assert r[|ProcessingPrefix|..|ProcessingPrefix| + |fileName|] == fileName;
    r
  }

  /** The two concrete creators; the file name is fixed at construction
      (`FileProcessor.__init__`) and never reassigned. */
  datatype FileProcessor = JsonFileProcessor(fileName: string) | XmlFileProcessor(fileName: string)

  /** The factory method `create_handler`, as each subclass overrides it. */
  function CreateHandler(p: FileProcessor): (h: DataFormat)
    ensures h == JsonFormat <==> p.JsonFileProcessor?
    ensures h == XmlFormat <==> p.XmlFileProcessor?
  {
    match p
    case JsonFileProcessor(_) => JsonFormat
    case XmlFileProcessor(_) => XmlFormat
  }

  /** The fixed framing `run_processing` puts around the handler's report. */
  const ResultPrefix: string := "FileProcessor: Executed business logic. Result: ("
  const ResultSuffix: string := ")"

  /** `FileProcessor.run_processing`: create the handler, let it process the
      stored file name, and wrap its report. */
  function RunProcessing(p: FileProcessor): (r: string)
    ensures ParseReport(r) == Some((CreateHandler(p), p.fileName))
  {
    ParseReportRoundTrip(CreateHandler(p), p.fileName);
    ResultPrefix + Process(CreateHandler(p), p.fileName) + ResultSuffix
  }

  /** Whether `s` ends with `suffix`. */
  predicate EndsWith(s: string, suffix: string)
  {
    |suffix| <= |s| && s[|s| - |suffix|..] == suffix
  }

  /** Reads a `run_processing` report back: which handler wrote it and for
      which file name; `None` for any text the processors cannot produce. */
  function ParseReport(r: string): (res: Option<(DataFormat, string)>)
  {
    var head := ResultPrefix + ProcessingPrefix;
    if |r| < |head| || r[..|head|] != head then None
    else if EndsWith(r, HandlerSuffix(JsonFormat) + ResultSuffix)
            && |head| + |HandlerSuffix(JsonFormat) + ResultSuffix| <= |r| then
      Some((JsonFormat, r[|head|..|r| - |HandlerSuffix(JsonFormat) + ResultSuffix|]))
    else if EndsWith(r, HandlerSuffix(XmlFormat) + ResultSuffix)
            && |head| + |HandlerSuffix(XmlFormat) + ResultSuffix| <= |r| then
      Some((XmlFormat, r[|head|..|r| - |HandlerSuffix(XmlFormat) + ResultSuffix|]))
    else None
  }

  /** A report is the prefix, the file name and the handler's closing words. */
  lemma RunProcessingShape(p: FileProcessor)
    ensures RunProcessing(p)
         == ResultPrefix + ProcessingPrefix + p.fileName + HandlerSuffix(CreateHandler(p)) + ResultSuffix
  {
  }

  /** A report of the XML handler never ends like one of the JSON handler. */
  lemma SuffixesDiffer(s: string)
    requires EndsWith(s, HandlerSuffix(XmlFormat) + ResultSuffix)
    ensures !EndsWith(s, HandlerSuffix(JsonFormat) + ResultSuffix)
  {
    var xml := HandlerSuffix(XmlFormat) + ResultSuffix;
    assert s[|s| - 11] == xml[|xml| - 11] == 'L' by {
      assert s[|s| - 11] == s[|s| - |xml|..][|xml| - 11];
    }
  }

  /** A handler report is the opening words, the file name and the closing words. */
  lemma ProcessShape(h: DataFormat, fileName: string)
    ensures Process(h, fileName) == ProcessingPrefix + fileName + HandlerSuffix(h)
  {
    var body := Process(h, fileName);
    assert body == body[..|ProcessingPrefix|]
                 + body[|ProcessingPrefix|..|ProcessingPrefix| + |fileName|]
                 + body[|ProcessingPrefix| + |fileName|..];
  }

  /** The parser accepts a framed report of handler `h` on `fileName` and
      returns exactly those two. */
  lemma ParseFramed(h: DataFormat, fileName: string)
    ensures ParseReport(ResultPrefix + ProcessingPrefix + fileName + HandlerSuffix(h) + ResultSuffix)
         == Some((h, fileName))
  {
    var head := ResultPrefix + ProcessingPrefix;
    var tail := HandlerSuffix(h) + ResultSuffix;
    var r := head + fileName + tail;
    assert ResultPrefix + ProcessingPrefix + fileName + HandlerSuffix(h) + ResultSuffix == r;
    assert r[..|head|] == head;
    assert r[|r| - |tail|..] == tail;
    assert r[|head|..|r| - |tail|] == fileName;
    if h == XmlFormat { SuffixesDiffer(r); }
  }

  /** The framed report spelled out around the file name. */
  lemma FramedShape(h: DataFormat, fileName: string)
    ensures ResultPrefix + Process(h, fileName) + ResultSuffix
         == ResultPrefix + ProcessingPrefix + fileName + HandlerSuffix(h) + ResultSuffix
  {
    ProcessShape(h, fileName);
  }

  /** Round trip: the handler and the file name can be read back,
      unchanged, from the framed report of that handler on that file. */
  lemma {:induction false} ParseReportRoundTrip(h: DataFormat, fileName: string)
    ensures ParseReport(ResultPrefix + Process(h, fileName) + ResultSuffix) == Some((h, fileName))
  {
    FramedShape(h, fileName);
    ParseFramed(h, fileName);
  }

  /** Different processors never produce the same report. */
  lemma RunProcessingInjective(p: FileProcessor, q: FileProcessor)
    ensures RunProcessing(p) == RunProcessing(q) <==> p == q
  {
    // The contract of RunProcessing reads both processors back from the report.
  }
}
