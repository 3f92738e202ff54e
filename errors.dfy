/** The shared error vocabulary of src/errors.rs, and the `anyhow` chain every
    command reports its failures through. */
module Errors {

  /** A file-system path as its components below the root: `[]` is "/". */
  type Path = seq<string>

  /** The typed errors the commands raise (src/errors.rs). */
  datatype TemplativeError =
    | DangerousPath(path: Path)
    | TargetNotEmpty
    | TemplateNotFound(name: string)
    | TemplateExists(name: string)
    | TemplatePathMissing(path: Path)
    | SymlinkNotSupported
    | UnsupportedRegistryVersion
    | UnsupportedConfigVersion

  /** An `anyhow::Error`: a typed error, a `bail!` message, a failure reported by
      a library or subprocess this model does not look into, or one of these
      wrapped in a `.context(...)` message. */
  datatype Error =
    | Templative(kind: TemplativeError)
    | Message(text: string)
    | External(source: string)
    | Context(context: string, cause: Error)

  datatype Result<T> = Ok(value: T) | Err(error: Error) {
    predicate IsFailure() { Err? }
    function PropagateFailure<U>(): Result<U>
      requires Err?
    {
      Err(error)
    }
    function Extract(): T
      requires Ok?
    {
      value
    }
  }

  /** What `downcast_ref::<TemplativeError>()` finds: the typed error at the
      bottom of a context chain, if there is one. */
  function Kind(e: Error): Option<TemplativeError>
  {
    match e
    case Templative(kind) => Some(kind)
    case Message(_) => None
    case External(_) => None
    case Context(_, cause) => Kind(cause)
  }

  datatype Option<T> = None | Some(value: T)

  /** `path.display()` of an absolute path. */
  function Display(p: Path): string
  {
    if p == [] then "/" else DisplayParts(p)
  }

  function DisplayParts(p: Path): string
  {
    if p == [] then "" else "/" + p[0] + DisplayParts(p[1..])
  }

  /** The `Display` text `thiserror` gives each typed error; a path's `Debug`
      form is its text in quotes. */
  function KindText(kind: TemplativeError): string
  {
    match kind
    case DangerousPath(path) => "refusing to operate on \"" + Display(path) + "\""
    case TargetNotEmpty => "target directory is not empty"
    case TemplateNotFound(name) => "template not found: " + name
    case TemplateExists(name) => "template name already exists: " + name
    case TemplatePathMissing(path) => "template path missing or unreadable: \"" + Display(path) + "\""
    case SymlinkNotSupported => "symlinks not supported yet"
    case UnsupportedRegistryVersion => "unsupported registry version (expected 1)"
    case UnsupportedConfigVersion => "unsupported config version (expected 1)"
  }

  /** `format!("{:#}", err)`: every context, outermost first, then the cause,
      separated by ": ". A library's own message is its source text here. */
  function Render(e: Error): string
  {
    match e
    case Templative(kind) => KindText(kind)
    case Message(text) => text
    case External(source) => source
    case Context(context, cause) => context + ": " + Render(cause)
  }
}
