/** The four file processors and what one `processFile` call does.
    Files are a map from path to content (an absent path cannot be opened);
    what a processor writes to standard output is a sequence of `Line`s. */
module Processors {
  import opened Wrappers
  import opened Tokens
  import opened Keys

  type Path = string

  /** The files the program can read: a path missing from the map is one
      `std::ifstream` fails to open. */
  type FileSystem = map<Path, string>

  /** The Compressor's two configuration strings. */
  datatype Params = Params(param1: string, param2: string)

  datatype Processor =
    | Identity
    | Encoder
    | Compressor(params: Params)
    | Encryptor(key: Key)
  {
    /** Processing needs a live key: after `clearKey` the buffer is freed. */
    predicate Usable() {
      !(Encryptor? && key.Cleared?)
    }

    /** Every variant but Identity opens its file. */
    predicate OpensFile() {
      !Identity?
    }
  }

  /** One line of standard output, by what it reports (the wording of the
      lines is not modelled). */
  datatype Line =
    | Encoded(content: string)
    | Compressed(content: string, param1: string, param2: string)
    | Encrypted(content: string, key: seq<byte>)
    | KeyCleared
    | SomethingWrong
  {
    /** A line written by a processor's transform. */
    predicate IsReport() {
      Encoded? || Compressed? || Encrypted?
    }
  }

  const OpenErrorPrefix: string := "Troubles with openning \""

  /** A failed `processFile`: the string it threw. */
  datatype Failure = Thrown(message: string)

  /** The string thrown when a file cannot be opened: a fixed prefix, the
      path, and a closing quote. The path can be read back from it. */
  function OpenErrorMessage(path: Path): (m: string)
    ensures QuotedPath(m) == Some(path)
    ensures m[|m| - 1] == '"'
  {
    var m := OpenErrorPrefix + path + "\"";
    assert m[..|OpenErrorPrefix|] == OpenErrorPrefix;
    assert m[|OpenErrorPrefix|..|m| - 1] == path;
    m
  }

  /** The path quoted in an open-error message, if `message` has that shape. */
  function QuotedPath(message: string): Option<Path> {
    if |OpenErrorPrefix| < |message|
       && message[..|OpenErrorPrefix|] == OpenErrorPrefix
       && message[|message| - 1] == '"'
    then Some(message[|OpenErrorPrefix|..|message| - 1])
    else None
  }

  /** Different paths give different messages, so a failure identifies the
      path that could not be opened. */
  lemma OpenErrorMessageInjective(a: Path, b: Path)
    ensures OpenErrorMessage(a) == OpenErrorMessage(b) <==> a == b
  {
    if OpenErrorMessage(a) == OpenErrorMessage(b) {
      assert Some(a) == QuotedPath(OpenErrorMessage(a)) == Some(b);
    }
  }

  /** What one `processFile` call leaves behind: the lines it wrote and the
      failure it threw, if any. */
  datatype Step = Step(output: seq<Line>, failure: Option<Failure>)

  /** `encodeFile`, `compressFile` and `encryptFile`: report the content
      together with the processor's configuration. */
  function Transform(p: Processor, content: string): (r: Line)
    requires p.Usable() && p.OpensFile()
    ensures r.IsReport() && r.content == content
  {
    match p
    case Encoder => Encoded(content)
    case Compressor(params) => Compressed(content, params.param1, params.param2)
    case Encryptor(key) => Encrypted(content, CString(key.buffer))
  }

  /** `processFile`: Identity does nothing; the others open the path, throw
      if that fails, and otherwise hand the first token to their transform. */
  function ProcessFile(p: Processor, fs: FileSystem, path: Path): (r: Step)
    requires p.Usable()
    ensures r.failure.None? <==> Succeeds(p, fs, path)
    ensures r.failure.Some? ==> r.failure.value == Thrown(OpenErrorMessage(path)) && r.output == []
    ensures p.Identity? ==> r.output == []
    ensures p.OpensFile() && path in fs ==>
              && |r.output| == 1
              && r.output[0].IsReport()
              && r.output[0].content == FirstToken(fs[path])
  {
    if p.Identity? then
      Step([], None)
    else if path !in fs then
      Step([], Some(Thrown(OpenErrorMessage(path))))
    else
      Step([Transform(p, FirstToken(fs[path]))], None)
  }

  /** Whether `processFile` returns normally on `path`: Identity always
      does, the other variants when the path can be opened. */
  predicate Succeeds(p: Processor, fs: FileSystem, path: Path) {
    !p.OpensFile() || path in fs
  }

  /** Identity never fails and writes nothing, whatever the path and
      whether or not the file exists. */
  lemma IdentityIsInert(fs: FileSystem, path: Path)
    ensures ProcessFile(Identity, fs, path) == Step([], None)
  {
  }

  /** The content a processor reports is a white-space-free slice of the
      file, starting after the leading white space. */
  lemma ReportedContentIsSlice(p: Processor, fs: FileSystem, path: Path)
    requires p.Usable() && p.OpensFile() && path in fs
    ensures var c := ProcessFile(p, fs, path).output[0].content;
            var i := LeadingSpace(fs[path]);
            && (forall k :: 0 <= k < |c| ==> !IsSpace(c[k]))
            && i + |c| <= |fs[path]|
            && fs[path][i..i + |c|] == c
  {
  }

  /** The reported line carries the processor's own configuration: the
      Compressor's parameters, the Encryptor's key as printed. */
  lemma ReportCarriesConfiguration(p: Processor, fs: FileSystem, path: Path)
    requires p.Usable() && p.OpensFile() && path in fs
    ensures var l := ProcessFile(p, fs, path).output[0];
            && (p.Encoder? ==> l.Encoded?)
            && (p.Compressor? ==> l == Compressed(l.content, p.params.param1, p.params.param2))
            && (p.Encryptor? ==> l == Encrypted(l.content, CString(p.key.buffer)))
  {
  }

  // ---------------------------------------------------------------------
  // Compressor moves. Both the move constructor and the move assignment
  // exchange the two objects' parameters one field at a time; the
  // constructor first initialises its own fields to "".

  /** Exchanges the first parameter of the two objects. */
  function SwapFirst(target: Params, source: Params): (Params, Params) {
    (target.(param1 := source.param1), source.(param1 := target.param1))
  }

  /** Exchanges the second parameter of the two objects. */
  function SwapSecond(target: Params, source: Params): (Params, Params) {
    (target.(param2 := source.param2), source.(param2 := target.param2))
  }

  /** Move assignment of `source` into `target`; the result is the pair
      (target, source) afterwards. The two objects exchange parameters, so
      no parameter is lost or duplicated. */
  function MoveAssign(target: Params, source: Params): (r: (Params, Params))
    ensures r.0 == source && r.1 == target
    ensures multiset{r.0.param1, r.0.param2, r.1.param1, r.1.param2}
         == multiset{target.param1, target.param2, source.param1, source.param2}
  {
    var (t1, s1) := SwapFirst(target, source);
    SwapSecond(t1, s1)
  }

  /** Move construction from `source`; the result is the pair
      (new object, source afterwards). */
  function MoveConstruct(source: Params): (r: (Params, Params))
    ensures r.0 == source
    ensures r.1 == Params("", "")
  {
    MoveAssign(Params("", ""), source)
  }

  /** Assigning back undoes a move assignment. */
  lemma MoveAssignInvolutive(target: Params, source: Params)
    ensures var (t, s) := MoveAssign(target, source);
            MoveAssign(t, s) == (target, source)
  {
  }

  /** A moved-to Compressor processes exactly as the original did, and the
      moved-from one reports empty parameters, never the originals. */
  lemma MovedCompressorBehaviour(params: Params, fs: FileSystem, path: Path)
    ensures var (moved, emptied) := MoveConstruct(params);
            && ProcessFile(Compressor(moved), fs, path) == ProcessFile(Compressor(params), fs, path)
            && (path in fs ==>
                  ProcessFile(Compressor(emptied), fs, path).output
                  == [Compressed(FirstToken(fs[path]), "", "")])
  {
  }

  // ---------------------------------------------------------------------
  // Destruction.

  /** Running a processor's destructor: an Encryptor's calls `clearKey`
      once, which writes the key-clearing report and frees the key; the
      others do nothing. The result is the processor afterwards and the
      lines written. */
  function Destroy(p: Processor): (r: (Processor, seq<Line>))
    requires p.Usable()
    ensures r.0.Usable() <==> !p.Encryptor?
    ensures !p.Encryptor? ==> r.0 == p && r.1 == []
    ensures p.Encryptor? ==> r.0 == Encryptor(Cleared) && r.1 == [KeyCleared]
  {
    match p
    case Encryptor(_) => (Encryptor(Cleared), [KeyCleared])
    case _ => (p, [])
  }
}
