/** The command itself (`ocrit`, `OCRIT.swift`): check the output directory, warn
    about the first input that is not an image, announce the languages, then
    transcribe every input in order, printing each transcript or writing it next to
    the others in the output directory. A failure for one input is reported on
    standard error and never stops the others.

    The whole observable state is a `World`: the two output streams and the file
    system. The recognizer, the languages it supports, the clock and the paths the
    system refuses to write are fixed for a run. */
module Cli {
  import opened Common
  import opened Host
  import opened Paths
  import opened RequestValidation
  import opened Recognition
  import opened LegacyOperation

  /** The parsed command line: the image paths, `--output` and every `--language`. */
  datatype Ocrit = Ocrit(imagePaths: seq<string>, output: string, language: seq<string>)

  /** What a run can observe and change. */
  datatype World = World(stdout: string, stderr: string, nodes: map<string, Node>)

  /** What stays fixed during a run. */
  datatype Environment = Environment(now: Timestamps, query: SupportedQuery, engine: Engine)

  /** The paths the file system refuses to write, and those whose dates it refuses to set. */
  datatype Permissions = Permissions(writeLocked: set<string>, attributesLocked: set<string>)

  /** A new world, and the error a step threw, if any. */
  datatype Step = Step(world: World, failure: Option<Error>)

  /** The command as parsed when only image paths are given: `--output` defaults to
      `-` and no language is requested. */
  function WithDefaults(imagePaths: seq<string>): (command: Ocrit)
    ensures ShouldOutputToStdout(command) && command.language == [] && command.imagePaths == imagePaths
  {
    Ocrit(imagePaths, "-", [])
  }

  /** `shouldOutputToStdout`. */
  predicate ShouldOutputToStdout(command: Ocrit)
  {
    command.output == "-"
  }

  /** The checks of the validation pass for one input, in order: the file must exist,
      its type must be known, and the type must be an image. */
  function CheckImage(nodes: map<string, Node>, path: string): (failure: Option<Error>)
    ensures failure.None? <==> path in nodes && ContentType(nodes[path]) == Determined(true)
    ensures path !in nodes ==> failure == Some(Failure("Image doesn't exist at " + path))
    ensures path in nodes && ContentType(nodes[path]).LookupFailed? ==> failure == Some(ContentType(nodes[path]).error)
    ensures path in nodes && ContentType(nodes[path]) == Undetermined ==>
              failure == Some(Failure("Unable to determine file type at " + path))
    ensures path in nodes && ContentType(nodes[path]) == Determined(false) ==>
              failure == Some(Failure("File at " + path + " is not an image"))
  {
    if path !in nodes then Some(Failure("Image doesn't exist at " + path))
    else
      match ContentType(nodes[path])
      case LookupFailed(e) => Some(e)
      case Undetermined => Some(Failure("Unable to determine file type at " + path))
      case Determined(conforms) =>
        if conforms then None else Some(Failure("File at " + path + " is not an image"))
  }

  /** The error the validation pass stops at: that of the first input failing a check. */
  function FirstInvalid(nodes: map<string, Node>, paths: seq<string>): (failure: Option<Error>)
    ensures failure.None? <==> forall i :: 0 <= i < |paths| ==> CheckImage(nodes, paths[i]).None?
    ensures failure.Some? ==>
              exists i :: 0 <= i < |paths| && failure == CheckImage(nodes, paths[i])
                          && forall j :: 0 <= j < i ==> CheckImage(nodes, paths[j]).None?
  {
    if paths == [] then None
    else if CheckImage(nodes, paths[0]).Some? then CheckImage(nodes, paths[0])
    else
      var rest := FirstInvalid(nodes, paths[1..]);
      if rest.Some? then
        var k :| 0 <= k < |paths[1..]| && rest == CheckImage(nodes, paths[1..][k])
                 && forall j :: 0 <= j < k ==> CheckImage(nodes, paths[1..][j]).None?;
        assert forall j :: 0 <= j < k + 1 ==> CheckImage(nodes, paths[j]).None? by {
          forall j | 0 <= j < k + 1 ensures CheckImage(nodes, paths[j]).None? {
            if j > 0 {
              assert paths[j] == paths[1..][j - 1];
            }
          }
        }
        assert paths[k + 1] == paths[1..][k];
        rest
      else
        assert forall i :: 0 <= i < |paths| ==> CheckImage(nodes, paths[i]).None? by {
          forall i | 0 <= i < |paths| ensures CheckImage(nodes, paths[i]).None? {
            if i > 0 {
              assert paths[i] == paths[1..][i - 1];
            }
          }
        }
        None
  }

  /** The validation pass: its loop stops at the first input that fails a check. */
  method ValidateImages(nodes: map<string, Node>, paths: seq<string>) returns (failure: Option<Error>)
    ensures failure == FirstInvalid(nodes, paths)
  {
    var i := 0;
    while i < |paths|
      invariant 0 <= i <= |paths|
      invariant FirstInvalid(nodes, paths) == FirstInvalid(nodes, paths[i..])
    {
      assert paths[i..][0] == paths[i] && paths[i..][1..] == paths[i + 1..];
      var path := paths[i];
      if path !in nodes {
        return Some(Failure("Image doesn't exist at " + path));
      }
      match ContentType(nodes[path])
      case LookupFailed(e) =>
        return Some(e);
      case Undetermined =>
        return Some(Failure("Unable to determine file type at " + path));
      case Determined(conforms) =>
        if !conforms {
          return Some(Failure("File at " + path + " is not an image"));
        }
      i := i + 1;
    }
    assert paths[i..] == [];
    failure := None;
  }

  /** The line announcing the languages the recognition will use. */
  function LanguageMessage(language: seq<string>): (message: string)
    ensures language == [] ==> message == "Performing OCR…\n"
    ensures |language| == 1 ==> message == "Performing OCR with language: " + language[0] + "…\n"
    ensures |language| >= 2 ==> message == "Performing OCR with languages: " + Join(language, ", ") + "…\n"
    ensures StartsWith("Performing OCR", message)
    ensures forall i :: 0 <= i < |language| ==> IsInfix(language[i], message)
  {
    if language == [] then "Performing OCR…\n"
    else
      var lead := if |language| == 1 then "Performing OCR with language: " else "Performing OCR with languages: ";
      var named := if |language| == 1 then language[0] else Join(language, ", ");
      var message := lead + named + "…\n";
      assert message[..|"Performing OCR"|] == "Performing OCR";
      forall i | 0 <= i < |language|
        ensures IsInfix(language[i], message)
      {
        if |language| == 1 {
          assert InfixAt(language[0], message, |lead|) by {
            assert message[|lead|..|lead| + |language[0]|] == language[0];
          }
        } else {
          JoinContainsEach(language, ", ", i);
          InfixOfConcat(language[i], lead, named, "…\n");
        }
      }
      message
  }

  /** The report of a failed input. */
  function FailureLine(url: string, e: Error): (line: string)
    ensures StartsWith("OCR failed for " + LastPathComponent(url) + ": ", line)
  {
    var lead := "OCR failed for " + LastPathComponent(url) + ": ";
    var line := lead + LocalizedDescription(e) + "\n";
    assert line[..|lead|] == lead;
    line
  }

  /** `writeOutput(_:for:)`. To standard output: the file name, a colon, the text and
      a blank line. To a directory: the text goes to `<output>/<stem>.txt`, which then
      takes the dates of the image when they can be read; a file that was written
      stays written even when its dates cannot be set. */
  function WriteOutput(command: Ocrit, permissions: Permissions, now: Timestamps, w: World,
                       text: string, url: string): (s: Step)
    ensures ShouldOutputToStdout(command) ==>
              s == Step(w.(stdout := w.stdout + (LastPathComponent(url) + ":") + "\n" + (text + "\n") + "\n"), None)
    ensures !ShouldOutputToStdout(command) ==>
              var target := TextFileURL(command.output, url);
              var refused := target in permissions.writeLocked || IsExistingDirectory(w.nodes, target);
              && s.world.stdout == w.stdout && s.world.stderr == w.stderr
              && (forall p :: p in w.nodes && p != target ==> p in s.world.nodes && s.world.nodes[p] == w.nodes[p])
              && (refused ==> s == Step(w, Some(WriteError(target))))
              && s.world.nodes.Keys <= w.nodes.Keys + {target}
              && (!refused ==> target in s.world.nodes && s.world.nodes[target].File?
                               && s.world.nodes[target].contents == text)
              && (!refused && url != target ==>
                    var stamps := TimestampsAt(w.nodes, url);
                    && (stamps.None? ==> s.failure == None)
                    && (stamps.Some? && target !in permissions.attributesLocked ==>
                          s.failure == None && s.world.nodes[target].timestamps == stamps.value)
                    && (stamps.Some? && target in permissions.attributesLocked ==>
                          s.failure == Some(AttributeError(target))))
  {
    if ShouldOutputToStdout(command) then
      Step(w.(stdout := w.stdout + (LastPathComponent(url) + ":") + "\n" + (text + "\n") + "\n"), None)
    else
      var target := TextFileURL(command.output, url);
      match WriteText(w.nodes, permissions.writeLocked, target, text, now)
      case Err(e) => Step(w, Some(e))
      case Ok(written) =>
        match TimestampsAt(written, url)
        case None => Step(w.(nodes := written), None)
        case Some(stamps) =>
          match SetTimestamps(written, permissions.attributesLocked, target, stamps)
          case Err(e) => Step(w.(nodes := written), Some(e))
          case Ok(dated) => Step(w.(nodes := dated), None)
  }

  /** One pass of the processing loop: transcribe the input with a fresh
      `OCROperation`, write the transcript, and report whatever was thrown. */
  function ProcessImage(command: Ocrit, permissions: Permissions, env: Environment, w: World,
                        url: string): (r: World)
    ensures var t := Transcription(ImageAt(w.nodes, url), url, command.language, env.query, env.engine);
            t.Err? ==> r == w.(stderr := w.stderr + FailureLine(url, t.error))
    ensures ShouldOutputToStdout(command) ==> r.nodes == w.nodes
    ensures !ShouldOutputToStdout(command) ==> r.stdout == w.stdout
  {
    match Transcription(ImageAt(w.nodes, url), url, command.language, env.query, env.engine)
    case Err(e) => w.(stderr := w.stderr + FailureLine(url, e))
    case Ok(text) =>
      var s := WriteOutput(command, permissions, env.now, w, text, url);
      if s.failure.Some? then s.world.(stderr := s.world.stderr + FailureLine(url, s.failure.value))
      else s.world
  }

  /** The processing loop over the inputs, in order. */
  function ProcessImages(command: Ocrit, permissions: Permissions, env: Environment, w: World,
                         urls: seq<string>): (r: World)
    ensures ShouldOutputToStdout(command) ==> r.nodes == w.nodes
    ensures !ShouldOutputToStdout(command) ==> r.stdout == w.stdout
  {
    if urls == [] then w
    else ProcessImage(command, permissions, env, ProcessImages(command, permissions, env, w, urls[..|urls| - 1]),
                      urls[|urls| - 1])
  }

  /** Everything `run()` does, from the world `w` it starts in. */
  function RunCommand(command: Ocrit, permissions: Permissions, env: Environment, w: World): (s: Step)
    ensures s.failure.Some? <==> !ShouldOutputToStdout(command) && !IsExistingDirectory(w.nodes, command.output)
    ensures s.failure.Some? ==>
              s == Step(w, Some(Failure("Output path doesn't exist (or is not a directory) at " + command.output)))
    ensures s.failure.None? ==>
              s.world == ProcessImages(command, permissions, env, Announced(command, w), command.imagePaths)
  {
    if !ShouldOutputToStdout(command) && !IsExistingDirectory(w.nodes, command.output) then
      Step(w, Some(Failure("Output path doesn't exist (or is not a directory) at " + command.output)))
    else
      Step(ProcessImages(command, permissions, env, Announced(command, w), command.imagePaths), None)
  }

  /** The warning of the validation pass: none when every input passes, otherwise
      one `WARN:` line with the description of the first failure. */
  function ValidationWarning(nodes: map<string, Node>, paths: seq<string>): (warning: string)
    ensures warning == "" <==> FirstInvalid(nodes, paths).None?
    ensures FirstInvalid(nodes, paths).Some? ==>
              warning == "WARN: " + LocalizedDescription(FirstInvalid(nodes, paths).value) + "\n"
  {
    match FirstInvalid(nodes, paths)
    case None => ""
    case Some(e) => "WARN: " + LocalizedDescription(e) + "\n"
  }

  /** The world once the validation pass and the language line are written. */
  function Announced(command: Ocrit, w: World): (a: World)
    ensures a.stdout == w.stdout && a.nodes == w.nodes
    ensures a.stderr == w.stderr + "Validating images…\n" + ValidationWarning(w.nodes, command.imagePaths)
                        + LanguageMessage(command.language)
    ensures StartsWith(w.stderr + "Validating images…\n", a.stderr)
    ensures forall i :: 0 <= i < |command.language| ==> IsInfix(command.language[i], a.stderr)
  {
    var validating := w.stderr + "Validating images…\n";
    var warned := validating + ValidationWarning(w.nodes, command.imagePaths);
    var announced := warned + LanguageMessage(command.language);
    assert announced[..|validating|] == validating;
    forall i | 0 <= i < |command.language|
      ensures IsInfix(command.language[i], announced)
    {
      InfixOfAppend(command.language[i], warned, LanguageMessage(command.language));
    }
    w.(stderr := announced)
  }

  /** `writeOutput(_:for:)` on the console and the file system. */
  method Write(command: Ocrit, now: Timestamps, text: string, url: string, console: Console, fs: FileSystem)
    returns (failure: Option<Error>)
    modifies console, fs
    ensures var s := WriteOutput(command, Permissions(fs.writeLocked, fs.attributesLocked), now,
                                 old(World(console.stdout, console.stderr, fs.nodes)), text, url);
            && World(console.stdout, console.stderr, fs.nodes) == s.world
            && failure == s.failure
  {
    if command.output == "-" {
      console.Print(LastPathComponent(url) + ":");
      console.Print(text + "\n");
      return None;
    }
    var outputURL := TextFileURL(command.output, url);
    failure := fs.Write(outputURL, text, now);
    if failure.Some? {
      return;
    }
    var attributes := TimestampsAt(fs.nodes, url);
    if attributes.Some? {
      failure := fs.SetDates(outputURL, attributes.value);
    }
  }

  /** One pass of the processing loop on the console and the file system. */
  method ProcessOne(command: Ocrit, env: Environment, url: string, console: Console, fs: FileSystem)
    modifies console, fs
    ensures World(console.stdout, console.stderr, fs.nodes)
            == ProcessImage(command, Permissions(fs.writeLocked, fs.attributesLocked), env,
                            old(World(console.stdout, console.stderr, fs.nodes)), url)
  {
    var operation := new OCROperation(url, command.language);
    var text := operation.Run(fs.nodes, env.query, env.engine);
    if text.Ok? {
      var written := Write(command, env.now, text.value, url, console, fs);
      if written.Some? {
        console.PutError(FailureLine(url, written.value));
      }
    } else {
      console.PutError(FailureLine(url, text.error));
    }
  }

  /** The processing loop: every input in order, whatever happened to the others. */
  method ProcessAll(command: Ocrit, env: Environment, imageURLs: seq<string>, console: Console, fs: FileSystem)
    modifies console, fs
    ensures World(console.stdout, console.stderr, fs.nodes)
            == ProcessImages(command, Permissions(fs.writeLocked, fs.attributesLocked), env,
                             old(World(console.stdout, console.stderr, fs.nodes)), imageURLs)
  {
    ghost var permissions := Permissions(fs.writeLocked, fs.attributesLocked);
    ghost var start := World(console.stdout, console.stderr, fs.nodes);
    var i := 0;
    while i < |imageURLs|
      invariant 0 <= i <= |imageURLs|
      invariant World(console.stdout, console.stderr, fs.nodes)
                == ProcessImages(command, permissions, env, start, imageURLs[..i])
    {
      ghost var before := World(console.stdout, console.stderr, fs.nodes);
      ProcessOne(command, env, imageURLs[i], console, fs);
      assert imageURLs[..i + 1][..i] == imageURLs[..i];
      assert ProcessImages(command, permissions, env, start, imageURLs[..i + 1])
          == ProcessImage(command, permissions, env, before, imageURLs[i]);
      i := i + 1;
    }
    assert imageURLs[..i] == imageURLs;
  }

  /** The validation pass and the language line of `run()`. */
  method Announce(command: Ocrit, console: Console, fs: FileSystem)
    modifies console
    ensures World(console.stdout, console.stderr, fs.nodes)
            == Announced(command, old(World(console.stdout, console.stderr, fs.nodes)))
  {
    console.PutError("Validating images…\n");
    var invalid := ValidateImages(fs.nodes, command.imagePaths);
    if invalid.Some? {
      console.PutError("WARN: " + LocalizedDescription(invalid.value) + "\n");
    } else {
      assert console.stderr + ValidationWarning(fs.nodes, command.imagePaths) == console.stderr;
    }
    var language := command.language;
    if |language| == 0 {
      console.PutError("Performing OCR…\n");
    } else if |language| == 1 {
      console.PutError("Performing OCR with language: " + language[0] + "…\n");
    } else {
      console.PutError("Performing OCR with languages: " + Join(language, ", ") + "…\n");
    }
  }

  /** `run()`. */
  method Run(command: Ocrit, env: Environment, console: Console, fs: FileSystem) returns (failure: Option<Error>)
    modifies console, fs
    ensures var s := RunCommand(command, Permissions(fs.writeLocked, fs.attributesLocked), env,
                                old(World(console.stdout, console.stderr, fs.nodes)));
            && World(console.stdout, console.stderr, fs.nodes) == s.world
            && failure == s.failure
  {
    if command.output != "-" && !IsExistingDirectory(fs.nodes, command.output) {
      return Some(Failure("Output path doesn't exist (or is not a directory) at " + command.output));
    }
    Announce(command, console, fs);
    var imageURLs := command.imagePaths;
    ProcessAll(command, env, imageURLs, console, fs);
    failure := None;
  }

  /** What standard output shows for one input when printing: its transcript under
      its file name, or nothing when it failed. */
  function Entry(command: Ocrit, env: Environment, nodes: map<string, Node>, url: string): string
  {
    match Transcription(ImageAt(nodes, url), url, command.language, env.query, env.engine)
    case Ok(text) => (LastPathComponent(url) + ":") + "\n" + (text + "\n") + "\n"
    case Err(_) => ""
  }

  /** What standard error shows for one input when printing: its failure, if any. */
  function Complaint(command: Ocrit, env: Environment, nodes: map<string, Node>, url: string): string
  {
    match Transcription(ImageAt(nodes, url), url, command.language, env.query, env.engine)
    case Ok(_) => ""
    case Err(e) => FailureLine(url, e)
  }

  function Listing(command: Ocrit, env: Environment, nodes: map<string, Node>, urls: seq<string>): string
  {
    if urls == [] then ""
    else Listing(command, env, nodes, urls[..|urls| - 1]) + Entry(command, env, nodes, urls[|urls| - 1])
  }

  function Complaints(command: Ocrit, env: Environment, nodes: map<string, Node>, urls: seq<string>): string
  {
    if urls == [] then ""
    else Complaints(command, env, nodes, urls[..|urls| - 1]) + Complaint(command, env, nodes, urls[|urls| - 1])
  }

  lemma PrintingOneInput(command: Ocrit, permissions: Permissions, env: Environment, w: World, url: string)
    requires ShouldOutputToStdout(command)
    ensures ProcessImage(command, permissions, env, w, url)
            == World(w.stdout + Entry(command, env, w.nodes, url), w.stderr + Complaint(command, env, w.nodes, url),
                     w.nodes)
  {
    match Transcription(ImageAt(w.nodes, url), url, command.language, env.query, env.engine)
    case Err(e) =>
      assert w.stdout + [] == w.stdout;
    case Ok(text) =>
      PrintingTranscribedInput(command, permissions, env, w, url, text);
  }

  /** When printing, a transcribed input is printed under its name. */
  lemma PrintedInputStep(command: Ocrit, permissions: Permissions, env: Environment, w: World,
                         url: string, text: string)
    requires ShouldOutputToStdout(command)
    requires Transcription(ImageAt(w.nodes, url), url, command.language, env.query, env.engine) == Ok(text)
    ensures ProcessImage(command, permissions, env, w, url)
            == w.(stdout := w.stdout + (LastPathComponent(url) + ":") + "\n" + (text + "\n") + "\n")
  {
    TranscribedInputWritten(command, permissions, env, w, url, text);
  }

  /** When printing, a transcribed input adds its entry to standard output. */
  lemma PrintingTranscribedInput(command: Ocrit, permissions: Permissions, env: Environment, w: World,
                                 url: string, text: string)
    requires ShouldOutputToStdout(command)
    requires Transcription(ImageAt(w.nodes, url), url, command.language, env.query, env.engine) == Ok(text)
    ensures ProcessImage(command, permissions, env, w, url)
            == World(w.stdout + Entry(command, env, w.nodes, url), w.stderr + Complaint(command, env, w.nodes, url),
                     w.nodes)
  {
    PrintedInputStep(command, permissions, env, w, url, text);
    var name := LastPathComponent(url) + ":";
    assert Entry(command, env, w.nodes, url) == name + "\n" + (text + "\n") + "\n";
    assert Complaint(command, env, w.nodes, url) == [];
    assert w.stdout + name + "\n" + (text + "\n") + "\n" == w.stdout + (name + "\n" + (text + "\n") + "\n");
    assert w.stderr + [] == w.stderr;
  }

  /** When printing, the processing loop leaves the files alone, and each input,
      independently of the others and in order, adds its transcript to standard
      output or its failure to standard error. */
  lemma {:induction false} PrintingListsEveryInput(command: Ocrit, permissions: Permissions, env: Environment,
                                                   w: World, urls: seq<string>)
    requires ShouldOutputToStdout(command)
    ensures ProcessImages(command, permissions, env, w, urls)
            == World(w.stdout + Listing(command, env, w.nodes, urls),
                     w.stderr + Complaints(command, env, w.nodes, urls), w.nodes)
  {
    if urls == [] {
      assert w.stdout + [] == w.stdout && w.stderr + [] == w.stderr;
    } else {
      var init := urls[..|urls| - 1];
      var url := urls[|urls| - 1];
      PrintingListsEveryInput(command, permissions, env, w, init);
      PrintingOneInput(command, permissions, env, ProcessImages(command, permissions, env, w, init), url);
      AppendTwice(w.stdout, Listing(command, env, w.nodes, init), Entry(command, env, w.nodes, url));
      AppendTwice(w.stderr, Complaints(command, env, w.nodes, init), Complaint(command, env, w.nodes, url));
    }
  }

  lemma PrintedAppends(stdout: string, heading: string, body: string)
    ensures StartsWith(stdout, stdout + heading + "\n" + body + "\n")
  {
    assert (stdout + heading + "\n" + body + "\n")[..|stdout|] == stdout;
  }

  /** Writing a transcript leaves standard error alone and only adds to standard output. */
  lemma WriteOutputAppends(command: Ocrit, permissions: Permissions, now: Timestamps, w: World,
                           text: string, url: string)
    ensures var s := WriteOutput(command, permissions, now, w, text, url);
            StartsWith(w.stdout, s.world.stdout) && s.world.stderr == w.stderr
  {
    if ShouldOutputToStdout(command) {
      PrintedOutputAppends(command, permissions, now, w, text, url);
    } else {
      var s := WriteOutput(command, permissions, now, w, text, url);
      assert s.world.stdout == w.stdout && s.world.stderr == w.stderr;
      assert w.stdout[..|w.stdout|] == w.stdout;
    }
  }

  /** Printing a transcript only adds to standard output. */
  lemma PrintedOutputAppends(command: Ocrit, permissions: Permissions, now: Timestamps, w: World,
                             text: string, url: string)
    requires ShouldOutputToStdout(command)
    ensures var s := WriteOutput(command, permissions, now, w, text, url);
            StartsWith(w.stdout, s.world.stdout) && s.world.stderr == w.stderr
  {
    PrintedAppends(w.stdout, LastPathComponent(url) + ":", text + "\n");
  }

  /** One input only ever adds to the two output streams. */
  lemma ProcessImageAppends(command: Ocrit, permissions: Permissions, env: Environment, w: World, url: string)
    ensures var r := ProcessImage(command, permissions, env, w, url);
            StartsWith(w.stdout, r.stdout) && StartsWith(w.stderr, r.stderr)
  {
    var t := Transcription(ImageAt(w.nodes, url), url, command.language, env.query, env.engine);
    if t.Err? {
      assert w.stdout[..|w.stdout|] == w.stdout;
      StartsWithAppend(w.stderr, FailureLine(url, t.error));
    } else {
      TranscribedInputAppends(command, permissions, env, w, url, t.value);
    }
  }

  /** A transcribed input is written out, and a failure to write it is reported. */
  lemma TranscribedInputWritten(command: Ocrit, permissions: Permissions, env: Environment, w: World,
                                url: string, text: string)
    requires Transcription(ImageAt(w.nodes, url), url, command.language, env.query, env.engine) == Ok(text)
    ensures var s := WriteOutput(command, permissions, env.now, w, text, url);
            ProcessImage(command, permissions, env, w, url)
            == if s.failure.Some? then s.world.(stderr := s.world.stderr + FailureLine(url, s.failure.value))
               else s.world
  {
  }

  /** An input that was transcribed only adds to the two output streams. */
  lemma TranscribedInputAppends(command: Ocrit, permissions: Permissions, env: Environment, w: World,
                                url: string, text: string)
    requires Transcription(ImageAt(w.nodes, url), url, command.language, env.query, env.engine) == Ok(text)
    ensures var r := ProcessImage(command, permissions, env, w, url);
            StartsWith(w.stdout, r.stdout) && StartsWith(w.stderr, r.stderr)
  {
    var s := WriteOutput(command, permissions, env.now, w, text, url);
    TranscribedInputWritten(command, permissions, env, w, url, text);
    WriteOutputAppends(command, permissions, env.now, w, text, url);
    if s.failure.Some? {
      StartsWithAppend(w.stderr, FailureLine(url, s.failure.value));
    } else {
      assert w.stderr[..|w.stderr|] == w.stderr;
    }
  }

  /** The processing loop only ever adds to the two output streams: what the
      validation pass and the language line wrote stays at their head. */
  lemma {:induction false} ProcessingAppends(command: Ocrit, permissions: Permissions, env: Environment,
                                             w: World, urls: seq<string>)
    ensures var r := ProcessImages(command, permissions, env, w, urls);
            StartsWith(w.stdout, r.stdout) && StartsWith(w.stderr, r.stderr)
  {
    if urls == [] {
      StartsWithAppend(w.stdout, []);
      StartsWithAppend(w.stderr, []);
      assert w.stdout + [] == w.stdout && w.stderr + [] == w.stderr;
    } else {
      var p := ProcessImages(command, permissions, env, w, urls[..|urls| - 1]);
      ProcessingAppends(command, permissions, env, w, urls[..|urls| - 1]);
      ProcessImageAppends(command, permissions, env, p, urls[|urls| - 1]);
      var r := ProcessImages(command, permissions, env, w, urls);
      StartsWithTransitive(w.stdout, p.stdout, r.stdout);
      StartsWithTransitive(w.stderr, p.stderr, r.stderr);
    }
  }

  /** Every requested language is named on standard error by a run that gets past
      the output check. */
  lemma LanguagesAnnounced(command: Ocrit, permissions: Permissions, env: Environment, w: World)
    requires RunCommand(command, permissions, env, w).failure.None?
    ensures forall i :: 0 <= i < |command.language| ==>
              IsInfix(command.language[i], RunCommand(command, permissions, env, w).world.stderr)
  {
    var a := Announced(command, w);
    ProcessingAppends(command, permissions, env, a, command.imagePaths);
    forall i | 0 <= i < |command.language|
      ensures IsInfix(command.language[i], RunCommand(command, permissions, env, w).world.stderr)
    {
      InfixOfPrefix(command.language[i], a.stderr, RunCommand(command, permissions, env, w).world.stderr);
    }
  }

  /** With a language the recognizer does not support, no input is transcribed. */
  lemma {:induction false} NothingListedWhenUnsupported(command: Ocrit, env: Environment, nodes: map<string, Node>,
                                                        urls: seq<string>, codes: seq<string>)
    requires env.query == Languages(codes)
    requires exists j :: 0 <= j < |command.language| && command.language[j] !in codes
    ensures Listing(command, env, nodes, urls) == ""
  {
    if urls != [] {
      var url := urls[|urls| - 1];
      NothingListedWhenUnsupported(command, env, nodes, urls[..|urls| - 1], codes);
      var load := ImageAt(nodes, url);
      if load.Loaded? {
        assert ResolveLanguages(command.language, env.query).Err?;
      }
      assert Entry(command, env, nodes, url) == "";
    }
  }

  /** With a language the recognizer does not support, every input that loads is
      reported as an unsupported language. */
  lemma {:induction false} UnsupportedComplaint(command: Ocrit, env: Environment, nodes: map<string, Node>,
                                                urls: seq<string>, codes: seq<string>, i: nat)
    requires env.query == Languages(codes)
    requires exists j :: 0 <= j < |command.language| && command.language[j] !in codes
    requires i < |urls| && ImageAt(nodes, urls[i]).Loaded?
    ensures IsInfix("Unsupported language", Complaints(command, env, nodes, urls))
  {
    var init := urls[..|urls| - 1];
    var url := urls[|urls| - 1];
    if i == |urls| - 1 {
      UnsupportedLanguageFails(ImageAt(nodes, url), url, command.language, codes, env.engine);
      var e := Transcription(ImageAt(nodes, url), url, command.language, env.query, env.engine).error;
      var lead := "OCR failed for " + LastPathComponent(url) + ": ";
      PrefixIsInfix("Unsupported language", e.errorDescription);
      InfixOfConcat("Unsupported language", lead, e.errorDescription, "\n");
      assert Complaint(command, env, nodes, url) == lead + e.errorDescription + "\n";
      InfixOfAppend("Unsupported language", Complaints(command, env, nodes, init), Complaint(command, env, nodes, url));
    } else {
      assert init[i] == urls[i];
      UnsupportedComplaint(command, env, nodes, init, codes, i);
      StartsWithAppend(Complaints(command, env, nodes, init), Complaint(command, env, nodes, url));
      InfixOfPrefix("Unsupported language", Complaints(command, env, nodes, init), Complaints(command, env, nodes, urls));
    }
  }

  /** Printing with a language the recognizer does not support: nothing reaches
      standard output, and standard error says the language is unsupported as soon
      as one input loads as an image. */
  lemma UnsupportedLanguageRun(command: Ocrit, permissions: Permissions, env: Environment, w: World,
                               codes: seq<string>)
    requires ShouldOutputToStdout(command)
    requires env.query == Languages(codes)
    requires exists j :: 0 <= j < |command.language| && command.language[j] !in codes
    ensures var r := RunCommand(command, permissions, env, w);
            && r.failure.None? && r.world.stdout == w.stdout && r.world.nodes == w.nodes
            && ((exists i :: 0 <= i < |command.imagePaths| && ImageAt(w.nodes, command.imagePaths[i]).Loaded?)
                ==> IsInfix("Unsupported language", r.world.stderr))
  {
    var a := Announced(command, w);
    PrintingListsEveryInput(command, permissions, env, a, command.imagePaths);
    NothingListedWhenUnsupported(command, env, w.nodes, command.imagePaths, codes);
    assert a.stdout + "" == w.stdout;
    if exists i :: 0 <= i < |command.imagePaths| && ImageAt(w.nodes, command.imagePaths[i]).Loaded? {
      var i :| 0 <= i < |command.imagePaths| && ImageAt(w.nodes, command.imagePaths[i]).Loaded?;
      UnsupportedComplaint(command, env, w.nodes, command.imagePaths, codes, i);
      InfixOfAppend("Unsupported language", a.stderr, Complaints(command, env, w.nodes, command.imagePaths));
    }
  }

  /** Writing to a directory: a transcribed input whose text file may be written
      ends up in `<output>/<stem>.txt` with the transcript as its contents, and
      nothing is printed. */
  lemma DirectoryReceivesTranscript(command: Ocrit, permissions: Permissions, env: Environment, w: World,
                                    url: string, text: string)
    requires !ShouldOutputToStdout(command)
    requires Transcription(ImageAt(w.nodes, url), url, command.language, env.query, env.engine) == Ok(text)
    requires TextFileURL(command.output, url) !in permissions.writeLocked
    requires !IsExistingDirectory(w.nodes, TextFileURL(command.output, url))
    ensures var target := TextFileURL(command.output, url);
            var r := ProcessImage(command, permissions, env, w, url);
            && target in r.nodes && r.nodes[target].File? && r.nodes[target].contents == text
            && r.stdout == w.stdout
            && LastPathComponent(target) == FileStem(url) + ".txt"
  {
  }

  /** Writing to a directory, the inputs that fail: a refused write leaves the files
      as they were and reports the write error; a file whose dates cannot be set stays
      written with the transcript, and the date error is reported. */
  lemma DirectoryReportsFailures(command: Ocrit, permissions: Permissions, env: Environment, w: World,
                                 url: string)
    requires !ShouldOutputToStdout(command)
    ensures var t := Transcription(ImageAt(w.nodes, url), url, command.language, env.query, env.engine);
            var target := TextFileURL(command.output, url);
            var refused := target in permissions.writeLocked || IsExistingDirectory(w.nodes, target);
            var r := ProcessImage(command, permissions, env, w, url);
            && (t.Ok? && refused ==> r == w.(stderr := w.stderr + FailureLine(url, WriteError(target))))
            && (t.Ok? && !refused && url != target && TimestampsAt(w.nodes, url).Some?
                && target in permissions.attributesLocked ==>
                  && r.stdout == w.stdout
                  && r.stderr == w.stderr + FailureLine(url, AttributeError(target))
                  && target in r.nodes && r.nodes[target].contents == t.value)
  {
  }

  /** `--output -` decides what a run may touch: printing never fails the output
      check and never changes a file; writing to a directory never prints. */
  lemma OutputModeSeparatesEffects(command: Ocrit, permissions: Permissions, env: Environment, w: World)
    ensures var s := RunCommand(command, permissions, env, w);
            && (ShouldOutputToStdout(command) ==> s.failure.None? && s.world.nodes == w.nodes)
            && (!ShouldOutputToStdout(command) ==> s.world.stdout == w.stdout)
  {
  }

  /** Whatever happened to the earlier inputs, failures included, the later ones are
      processed from the world the earlier ones left. */
  lemma {:induction false} LaterInputsProcessed(command: Ocrit, permissions: Permissions, env: Environment,
                                                w: World, first: seq<string>, rest: seq<string>)
    ensures ProcessImages(command, permissions, env, w, first + rest)
            == ProcessImages(command, permissions, env, ProcessImages(command, permissions, env, w, first), rest)
  {
    if rest == [] {
      assert first + rest == first;
    } else {
      var init, last := rest[..|rest| - 1], rest[|rest| - 1];
      DropLastOfAppend(first, rest);
      LastInputProcessed(command, permissions, env, w, first + rest);
      LaterInputsProcessed(command, permissions, env, w, first, init);
      LastInputProcessed(command, permissions, env, ProcessImages(command, permissions, env, w, first), rest);
    }
  }

  /** The last input is processed from the world the ones before it left. */
  lemma LastInputProcessed(command: Ocrit, permissions: Permissions, env: Environment, w: World,
                           urls: seq<string>)
    requires urls != []
    ensures ProcessImages(command, permissions, env, w, urls)
            == ProcessImage(command, permissions, env, ProcessImages(command, permissions, env, w, urls[..|urls| - 1]),
                            urls[|urls| - 1])
  {
  }
}
