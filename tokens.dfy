/** The values the tokenizer produces and keeps: tokens, simple-key
    candidates and scan errors.  Their Rust definitions live in a types
    module and an error module that are not part of this model; the shapes
    below are the ones `src/scanner.rs` builds and matches on. */
module Tokens {
  import opened Markers

  datatype Option<T> = None | Some(value: T)

  datatype TEncoding = Utf8

  datatype TScalarStyle = Any | Plain | SingleQuoted | DoubleQuoted | Literal | Folded

  datatype TokenType =
    | NoToken
    | StreamStart(encoding: TEncoding)
    | StreamEnd
    | VersionDirective(major: nat, minor: nat)
    | TagDirective(handle: string, prefix: string)
    | DocumentStart
    | DocumentEnd
    | BlockSequenceStart
    | BlockMappingStart
    | BlockEnd
    | FlowSequenceStart
    | FlowSequenceEnd
    | FlowMappingStart
    | FlowMappingEnd
    | BlockEntry
    | FlowEntry
    | Key
    | Value
    | Alias(name: string)
    | Anchor(name: string)
    | Tag(handle: string, suffix: string)
    | Scalar(style: TScalarStyle, text: string)
    | Comment(comment: string)

  /** A token and the position where it starts. */
  datatype Token = Token(mark: Marker, tokenType: TokenType)

  /** A place where a simple (implicit) key may have started: `possible`
      while a ':' could still turn it into a key, `required` when it must,
      `tokenNumber` the queue position (counted over the whole stream) where
      the Key token would be inserted. */
  datatype SimpleKey = SimpleKey(possible: bool, required: bool, tokenNumber: nat, mark: Marker)

  /** `SimpleKey::new`: an empty slot that is neither possible nor required. */
  function NewSimpleKey(mark: Marker): (k: SimpleKey)
    ensures !k.possible && !k.required && k.mark == mark
  {
    SimpleKey(false, false, 0, mark)
  }

  /** One variant per error message of the tokenizer. */
  datatype ErrorKind =
    | UnexpectedCharacter(c: char)
    | SimpleKeyExpectColon
    | DirectiveNoLineBreak
    | VersionNoDot
    | DirectiveNoName
    | DirectiveBadNameChar
    | VersionTooLong
    | VersionNoNumber
    | TagDirectiveNoBlank
    | TagNoClosingAngle
    | TagNoBlank
    | TagNoBang
    | TagDirectiveNoBang
    | TagNoUri
    | UriNoOctet
    | UriBadLeadOctet
    | UriBadTrailOctet
    | UriBadCodepoint
    | AnchorNoName
    | RecursionLimit
    | BlockEntryNotAllowed
    | BlockEntryInFlow
    | IndentIndicatorZero
    | BlockScalarNoLineBreak
    | BlockScalarTab
    | QuotedDocumentIndicator
    | QuotedEndOfStream
    | UnknownEscape
    | EscapeNoHex
    | EscapeBadCodepoint
    | PlainTab
    | KeyNotAllowed
    | ValueNotAllowed
    | SimpleKeyExpected

  datatype ScanError = ScanError(mark: Marker, kind: ErrorKind)

  datatype Result<T> = Ok(value: T) | Err(error: ScanError)
}
