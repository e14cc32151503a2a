/** The file helper shared by the scheduler, the item fetcher and the curl
    generator, over an abstract file system: a map from path to content.
    Whether a write succeeds (directory creation, permissions, disk space) is
    decided by the environment and passed in as `ok`. */
module FileHandler {

  /** What a file holds: a document written with JSON.stringify (format
      'json'), or raw text (format 'text'). */
  datatype Content<D> = Json(doc: D) | Raw(text: string)

  /** What readFile gives back: null for a missing file, the parsed document,
      or an exception from JSON.parse. Raw text is taken not to parse: the
      only text the system writes is a curl command, which is not JSON. */
  datatype ReadResult<D> = Missing | Parsed(doc: D) | Unparsable

  /** fs.writeFileSync either returns or throws. */
  datatype WriteOutcome = Written | WriteThrew

  type Files<D> = map<string, Content<D>>

  function Read<D>(files: Files<D>, path: string): (r: ReadResult<D>)
    ensures r.Missing? <==> path !in files
    ensures r.Parsed? <==> path in files && files[path].Json?
    ensures r.Parsed? ==> files[path] == Json(r.doc)
  {
    if path !in files then Missing
    else match files[path]
      case Json(d) => Parsed(d)
      case Raw(_) => Unparsable
  }

  /** The file system after a write of `content` to `path`: replaced whole
      when the write succeeds, untouched when it throws. */
  function Write<D>(files: Files<D>, path: string, content: Content<D>, ok: bool): (r: Files<D>)
    ensures ok ==> path in r && r[path] == content
    ensures !ok ==> r == files
    ensures forall p :: p != path ==> (p in r <==> p in files)
    ensures forall p :: p != path && p in r ==> r[p] == files[p]
  {
    if ok then files[path := content] else files
  }

  /** A JSON document written successfully is read back as itself, and no
      other path reads differently. */
  lemma ReadAfterWrite<D>(files: Files<D>, path: string, doc: D, other: string)
    ensures Read(Write(files, path, Json(doc), true), path) == Parsed(doc)
    ensures other != path ==> Read(Write(files, path, Json(doc), true), other) == Read(files, other)
  {
  }

  /** The file system as the process sees it through `fs`. */
  class FileStore<D> {
    var files: Files<D>

    constructor (initial: Files<D>)
      ensures files == initial
    {
      files := initial;
    }

    /** fs.writeFileSync: replaces the whole file, or throws. */
    method WriteFileSync(path: string, content: Content<D>, ok: bool) returns (outcome: WriteOutcome)
      modifies this
      ensures files == Write(old(files), path, content, ok)
      ensures outcome == (if ok then Written else WriteThrew)
    {
      if ok {
        files := files[path := content];
        outcome := Written;
      } else {
        outcome := WriteThrew;
      }
    }

    /** writeToFile: creates the directory, writes, and swallows any error,
        so a failed write leaves the old content in place. */
    method WriteToFile(data: Content<D>, filename: string, ok: bool)
      modifies this
      ensures files == Write(old(files), filename, data, ok)
    {
      var _ := WriteFileSync(filename, data, ok);
    }

    /** readFile: null when the file does not exist, else JSON.parse of its
        content (which throws on text that is not JSON). */
    method ReadFile(filename: string) returns (r: ReadResult<D>)
      ensures r == Read(files, filename)
    {
      if filename !in files {
        return Missing;
      }
      match files[filename] {
        case Json(d) => r := Parsed(d);
        case Raw(_) => r := Unparsable;
      }
    }
  }
}
