/** The environment the pipeline runs in, reduced to what it observes: the standard
    output and standard error streams (append-only text), and the file system as a
    map from paths to entries. What the image frameworks make of a file is recorded
    on the entry itself. */
module Host {
  import opened Common

  /** An opaque decoded image (`CGImage`). */
  datatype Image = Image(handle: nat)

  /** What `NSImage(contentsOf:)` followed by `cgImage(forProposedRect:…)` gives. */
  datatype ImageLoad = Unreadable | NoCGImage | Loaded(image: Image)

  /** A file's creation and content-modification dates. */
  datatype Timestamps = Timestamps(creation: int, modification: int)

  /** What the content-type resource value of a file gives: an error, no type, or a
      type that does or does not conform to `public.image`. */
  datatype TypeLookup = LookupFailed(error: Error) | Undetermined | Determined(conformsToImage: bool)

  datatype Node =
    | Directory
    | File(contents: string, contentType: TypeLookup, decoded: ImageLoad, timestamps: Timestamps)

  /** `URL.isExistingDirectory`: the path exists and is a directory. */
  predicate IsExistingDirectory(nodes: map<string, Node>, path: string)
    ensures IsExistingDirectory(nodes, path) ==>
              path in nodes && ImageAt(nodes, path) == Unreadable && TimestampsAt(nodes, path) == None
    ensures path !in nodes ==> !IsExistingDirectory(nodes, path)
  {
    path in nodes && nodes[path].Directory?
  }

  /** The content type of an existing entry; a directory is a folder, never an image. */
  function ContentType(node: Node): TypeLookup
  {
    match node
    case Directory => Determined(false)
    case File(_, t, _, _) => t
  }

  /** What loading the image at `path` gives. */
  function ImageAt(nodes: map<string, Node>, path: string): ImageLoad
  {
    if path in nodes && nodes[path].File? then nodes[path].decoded else Unreadable
  }

  /** `try? url.resourceValues(forKeys: [.creationDateKey, .contentModificationDateKey])`. */
  function TimestampsAt(nodes: map<string, Node>, path: string): Option<Timestamps>
  {
    if path in nodes && nodes[path].File? then Some(nodes[path].timestamps) else None
  }

  /** The error the system reports when `path` cannot be written. */
  function WriteError(path: string): Error
  {
    CocoaError("The file couldn't be saved at " + path, path)
  }

  /** The error the system reports when the attributes of `path` cannot be set. */
  function AttributeError(path: string): Error
  {
    CocoaError("The attributes couldn't be set at " + path, path)
  }

  /** A Cocoa file error as `NSError` carries it: interpolation shows its domain,
      its message and the path, `localizedDescription` the message alone. */
  function CocoaError(message: string, path: string): (e: Error)
    ensures e.Foreign? && e.localizedDescription == message
    ensures StartsWith("Error Domain=NSCocoaErrorDomain", e.description)
    ensures IsInfix(message, e.description)
  {
    var lead := "Error Domain=NSCocoaErrorDomain Code=513 \"";
    var description := lead + message + "\" UserInfo={NSFilePath=" + path + "}";
    assert description[..|"Error Domain=NSCocoaErrorDomain"|] == "Error Domain=NSCocoaErrorDomain";
    assert InfixAt(message, description, |lead|);
    Foreign(description, message)
  }

  /** `text.write(to: path, atomically: true, encoding: .utf8)`: replaces whatever
      file is at `path` with a new text file dated `now`; a directory, or a path the
      system refuses, is not written. */
  function WriteText(nodes: map<string, Node>, locked: set<string>, path: string,
                     text: string, now: Timestamps): (r: Result<map<string, Node>>)
    ensures r.Ok? <==> path !in locked && !IsExistingDirectory(nodes, path)
    ensures r.Ok? ==> r.value.Keys == nodes.Keys + {path}
                      && r.value[path].File? && r.value[path].contents == text
                      && forall p :: p in nodes && p != path ==> r.value[p] == nodes[p]
  {
    if path in locked || IsExistingDirectory(nodes, path) then Err(WriteError(path))
    else Ok(nodes[path := File(text, Determined(false), Unreadable, now)])
  }

  /** `url.setResourceValues(…)` with copied dates: only the dates of the file at
      `path` change. */
  function SetTimestamps(nodes: map<string, Node>, locked: set<string>, path: string,
                         stamps: Timestamps): (r: Result<map<string, Node>>)
    ensures r.Ok? <==> path !in locked && path in nodes && nodes[path].File?
    ensures r.Ok? ==> r.value.Keys == nodes.Keys
                      && r.value[path] == nodes[path].(timestamps := stamps)
                      && forall p :: p in nodes && p != path ==> r.value[p] == nodes[p]
  {
    if path in locked || path !in nodes || !nodes[path].File? then Err(AttributeError(path))
    else Ok(nodes[path := nodes[path].(timestamps := stamps)])
  }

  /** The process's two output streams. */
  class Console {
    var stdout: string
    var stderr: string

    constructor ()
      ensures stdout == "" && stderr == ""
    {
      stdout, stderr := "", "";
    }

    /** `fputs(text, stderr)`. */
    method PutError(text: string)
      modifies this
      ensures stderr == old(stderr) + text && stdout == old(stdout)
    {
      stderr := stderr + text;
    }

    /** `print(text)`: the text and a line break. */
    method Print(text: string)
      modifies this
      ensures stdout == old(stdout) + text + "\n" && stderr == old(stderr)
    {
      stdout := stdout + text + "\n";
    }
  }

  /** The file system. Paths in `writeLocked` refuse to be written and paths in
      `attributesLocked` refuse to take new dates (permissions, read-only volumes). */
  class FileSystem {
    var nodes: map<string, Node>
    const writeLocked: set<string>
    const attributesLocked: set<string>

    constructor (nodes: map<string, Node>, writeLocked: set<string>, attributesLocked: set<string>)
      ensures this.nodes == nodes && this.writeLocked == writeLocked
      ensures this.attributesLocked == attributesLocked
    {
      this.nodes := nodes;
      this.writeLocked := writeLocked;
      this.attributesLocked := attributesLocked;
    }

    method Write(path: string, text: string, now: Timestamps) returns (failure: Option<Error>)
      modifies this
      ensures var r := WriteText(old(nodes), writeLocked, path, text, now);
              && (r.Ok? ==> nodes == r.value && failure == None)
              && (r.Err? ==> nodes == old(nodes) && failure == Some(r.error))
    {
      var r := WriteText(nodes, writeLocked, path, text, now);
      if r.Ok? {
        nodes := r.value;
        failure := None;
      } else {
        failure := Some(r.error);
      }
    }

    method SetDates(path: string, stamps: Timestamps) returns (failure: Option<Error>)
      modifies this
      ensures var r := SetTimestamps(old(nodes), attributesLocked, path, stamps);
              && (r.Ok? ==> nodes == r.value && failure == None)
              && (r.Err? ==> nodes == old(nodes) && failure == Some(r.error))
    {
      var r := SetTimestamps(nodes, attributesLocked, path, stamps);
      if r.Ok? {
        nodes := r.value;
        failure := None;
      } else {
        failure := Some(r.error);
      }
    }
  }
}
