/** File classification: the decision layer over the mime detectors, the
    lexers and the text reader. Each library call is an input of the model,
    described by what it gave back. */
module FileHandling {
  import opened Wrappers
  import opened Strs

  /** What a mime detector (`filetype.guess`, `magic.from_file`) gave back:
      a mime string (possibly empty), nothing, an I/O or permission error,
      or any other exception. */
  datatype Probe = Mime(mime: string) | NoMime | IoError | OtherError

  /** The mime a probe contributes, when it is present and non-empty. */
  function Usable(p: Probe): Option<string> {
    if p.Mime? && p.mime != "" then Some(p.mime) else None
  }

  /** `guess_file_type`: the filetype result when it names a mime, otherwise
      the magic result; None when magic has nothing or either detector hits
      an I/O error; other exceptions escape. */
  function GuessFileType(filetype: Probe, magic: Probe): (r: Outcome<Option<string>>)
    ensures Usable(filetype).Some? ==> r == Ok(Usable(filetype))
    ensures filetype.NoMime? || filetype == Mime("") ==>
      r == (if magic.OtherError? then Raised else Ok(Usable(magic)))
    ensures filetype.IoError? ==> r == Ok(None)
    ensures r.Ok? && r.value.Some? ==> r.value.value != ""
  {
    match filetype
    case IoError => Ok(None)
    case OtherError => Raised
    case _ =>
      if Usable(filetype).Some? then Ok(Usable(filetype))
      else
        match magic
        case IoError => Ok(None)
        case OtherError => Raised
        case _ => Ok(Usable(magic))
  }

  /** Magic is consulted only when filetype gives no mime: its answer does
      not matter otherwise. */
  lemma MagicOnlyAsFallback(filetype: Probe, magic1: Probe, magic2: Probe)
    requires Usable(filetype).Some? || filetype.IoError? || filetype.OtherError?
    ensures GuessFileType(filetype, magic1) == GuessFileType(filetype, magic2)
  {
  }

  const TextTypes: seq<string> := [
    "text/plain", "text/html", "text/css", "text/javascript", "application/json", "application/xml"
  ]

  /** `is_text_file`: the guessed type is one of the six text mimes; any
      exception from guessing counts as not text. */
  function IsTextFile(filetype: Probe, magic: Probe): (r: bool)
    ensures r <==> exists k :: 0 <= k < |TextTypes| && GuessFileType(filetype, magic) == Ok(Some(TextTypes[k]))
  {
    match GuessFileType(filetype, magic)
    case Raised => false
    case Ok(None) => false
    case Ok(Some(t)) => t in TextTypes
  }

  /** `is_binary_file`: the negation of `is_text_file`, which never raises;
      an undetermined type is therefore binary. */
  function IsBinaryFile(filetype: Probe, magic: Probe): (r: bool)
    ensures r <==> !IsTextFile(filetype, magic)
    ensures GuessFileType(filetype, magic) == Ok(None) ==> r
  {
    !IsTextFile(filetype, magic)
  }

  /** What opening and reading a file as UTF-8 text gave back. */
  datatype ReadResult = Text(content: string) | ReadError

  /** `read_text_file`: the content, or None on an I/O, permission or
      decoding error. */
  function ReadTextFile(read: ReadResult): (r: Option<string>)
    ensures r.Some? <==> read.Text?
    ensures r.Some? ==> r.value == read.content
  {
    match read
    case Text(c) => Some(c)
    case ReadError => None
  }

  /** `async_read`: None for a binary file, the text reader's result
      otherwise. */
  function AsyncRead(filetype: Probe, magic: Probe, read: ReadResult): (r: Option<string>)
    ensures IsBinaryFile(filetype, magic) ==> r == None
    ensures !IsBinaryFile(filetype, magic) ==> r == ReadTextFile(read)
  {
    if IsBinaryFile(filetype, magic) then None else ReadTextFile(read)
  }

  /** Content reaches the caller only for a text file that was read. */
  lemma AsyncReadSome(filetype: Probe, magic: Probe, read: ReadResult)
    requires AsyncRead(filetype, magic, read).Some?
    ensures IsTextFile(filetype, magic)
    ensures read == Text(AsyncRead(filetype, magic, read).value)
  {
  }

  /** What a pygments lookup gave back: a lexer with a name, ClassNotFound,
      or another exception. */
  datatype Lexer = Named(name: string) | NotFound | LexerError

  /** `guess_language`: the lexer chosen by file name, else the one guessed
      from the content, named in lower case; None when the file cannot be
      read or any lookup raises. */
  function GuessLanguage(read: ReadResult, byFilename: Lexer, byContent: string -> Lexer): (r: Option<string>)
    ensures read.ReadError? ==> r == None
    ensures read.Text? && byFilename.Named? ==> r == Some(Lower(byFilename.name))
    ensures read.Text? && byFilename.NotFound? && byContent(read.content).Named? ==>
      r == Some(Lower(byContent(read.content).name))
    ensures read.Text? && byFilename.NotFound? && !byContent(read.content).Named? ==> r == None
    ensures byFilename.LexerError? ==> r == None
    ensures r.Some? <==> read.Text? && (byFilename.Named? || (byFilename.NotFound? && byContent(read.content).Named?))
  {
    match read
    case ReadError => None
    case Text(content) =>
      var lexer := if byFilename.NotFound? then byContent(content) else byFilename;
      if lexer.Named? then Some(Lower(lexer.name)) else None
  }

  /** A guessed language has no upper-case ASCII letter, so it is never
      literally `Python` or `JavaScript`. */
  lemma GuessedLanguageIsLower(read: ReadResult, byFilename: Lexer, byContent: string -> Lexer)
    requires GuessLanguage(read, byFilename, byContent).Some?
    ensures GuessLanguage(read, byFilename, byContent).value != "Python"
    ensures GuessLanguage(read, byFilename, byContent).value != "JavaScript"
  {
    var lexer := if byFilename.NotFound? then byContent(read.content) else byFilename;
    LowerHasNoCapitals(lexer.name);
  }
}
