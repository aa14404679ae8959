/** The fal image handler (src/handlers/fal_handler.rs): which chat lines
    set the background theme or trigger an image, how the image prompt is
    built, and how the images of a fal response are saved. The database,
    the fal service, the data-URL regular expression and base64 decoding
    are parameters (their results). */
module Fal {
  import opened Common
  import opened Events

  // ---------------------------------------------------------------------
  // handle_fal_commands
  // ---------------------------------------------------------------------

  /** What a chat line leads to; the command returns the result of the
      named call, except for `TalkVideo`, whose result is not looked at. */
  datatype FalAction =
    | NoAction
    | SetTheme(theme: string)
    | TalkVideo(imagePath: string)
    | TurboImage(prompt: string)

  /** Only beginbot, beginbotbot and moderators may change the theme. */
  predicate MayChangeTheme(msg: UserMessage) {
    msg.userName == "beginbot" || msg.userName == "beginbotbot" || msg.roles.isTwitchMod
  }

  /** A line that is not a command or a mention and has at least two words
      becomes an image prompt. */
  predicate IsFreeText(command: string, contents: string) {
    !StartsWith(command, "!") && !StartsWith(command, "@") && |SplitWhitespace(contents)| > 1
  }

  /** `handle_fal_commands` for a chat line, split on single spaces as the
      handler loop does; `storedTheme` is what reading the background
      theme returns. */
  function HandleFalCommands(msg: UserMessage, storedTheme: Result<string>): (r: Result<FalAction>)
    ensures r.Err? ==> storedTheme.Err?
  {
    var tokens := SplitOn(msg.contents, ' ');
    var command := tokens[0];
    if command == "!theme" then
      if !MayChangeTheme(msg) then Ok(NoAction) else Ok(SetTheme(Join(tokens[1..], " ")))
    else if command == "!talk" then Ok(TalkVideo("teej_2.jpg"))
    else if command == "!fal" then Ok(NoAction)
    else if IsFreeText(command, msg.contents) then
      match storedTheme
      case Ok(theme) => Ok(TurboImage(theme + " " + msg.contents))
      case Err(e) => Err(e)
    else Ok(NoAction)
  }

  /** `!theme` from anyone else does nothing; from beginbot, beginbotbot or
      a moderator it stores the rest of the line after the command, verbatim. */
  lemma ThemeGate(msg: UserMessage, storedTheme: Result<string>)
    requires SplitOn(msg.contents, ' ')[0] == "!theme"
    ensures !MayChangeTheme(msg) ==> HandleFalCommands(msg, storedTheme) == Ok(NoAction)
    ensures MayChangeTheme(msg) ==>
      HandleFalCommands(msg, storedTheme) == Ok(SetTheme(
        match IndexOf(msg.contents, ' ') case Some(i) => msg.contents[i + 1..] case None => ""))
  {
    var contents := msg.contents;
    var tokens := SplitOn(contents, ' ');
    match IndexOf(contents, ' ')
    case None =>
      assert tokens == [contents];
    case Some(i) =>
      assert tokens[1..] == SplitOn(contents[i + 1..], ' ');
      SplitOnJoin(contents[i + 1..], ' ');
  }

  /** An image is requested exactly for free text, with the stored theme,
      a space and the whole line as its prompt; a failing theme lookup is
      the result. */
  lemma FreeTextImage(msg: UserMessage, storedTheme: Result<string>)
    ensures var command := SplitOn(msg.contents, ' ')[0];
      var r := HandleFalCommands(msg, storedTheme);
      && ((r.Ok? && r.value.TurboImage?) <==> IsFreeText(command, msg.contents) && storedTheme.Ok?)
      && (r.Ok? && r.value.TurboImage? ==> r.value.prompt == storedTheme.value + " " + msg.contents)
      && (r.Err? <==> IsFreeText(command, msg.contents) && storedTheme.Err?)
  {
  }

  /** Commands and mentions never make an image, nor does a one-word line. */
  lemma NoImageForCommandsOrOneWord(msg: UserMessage, storedTheme: Result<string>)
    requires var command := SplitOn(msg.contents, ' ')[0];
      StartsWith(command, "!") || StartsWith(command, "@") || |SplitWhitespace(msg.contents)| <= 1
    ensures HandleFalCommands(msg, storedTheme).Ok?
    ensures !HandleFalCommands(msg, storedTheme).value.TurboImage?
  {
  }

  // ---------------------------------------------------------------------
  // process_images
  // ---------------------------------------------------------------------

  /** What the data-URL pattern and the base64 decoder make of an image
      url: None when the url does not match; otherwise the MIME type and
      the decoded bytes, or None when decoding fails. */
  datatype DataUrl = DataUrl(mime: string, decoded: Option<seq<bv8>>)
  datatype FalImage = FalImage(parsed: Option<DataUrl>)

  function MimeExtension(mime: string): (ext: string)
    ensures mime == "image/png" ==> ext == "png"
    ensures mime == "image/jpeg" ==> ext == "jpg"
    ensures mime != "image/png" && mime != "image/jpeg" ==> ext == "bin"
  {
    if mime == "image/png" then "png" else if mime == "image/jpeg" then "jpg" else "bin"
  }

  const LatestImageFile := "./tmp/dalle-1.png"

  /** The files one image is saved to, in order. */
  function ImageFiles(timestamp: string, ext: string, extraFolder: Option<string>): (files: seq<string>)
    ensures |files| == if extraFolder.Some? then 3 else 2
    ensures files[0] == "tmp/fal_images/" + timestamp + "." + ext && files[1] == LatestImageFile
  {
    ["tmp/fal_images/" + timestamp + "." + ext, LatestImageFile]
      + (if extraFolder.Some? then [extraFolder.value + "/" + timestamp + "." + ext] else [])
  }

  /** A file write and the bytes written. */
  datatype Write = Write(path: string, bytes: seq<bv8>)

  /** The writes, the indices of images skipped for a non-matching url, and the result. */
  datatype ProcessOutcome = ProcessOutcome(writes: seq<Write>, skipped: seq<nat>, result: Result<()>)

  /** The files of `files` written before the first one that cannot be
      created or written (`unwritable`), or all of them. */
  function WritesUntilFailure(files: seq<string>, bytes: seq<bv8>, unwritable: set<string>): (w: seq<Write>)
    ensures |w| <= |files|
    ensures forall k | 0 <= k < |w| :: w[k] == Write(files[k], bytes) && files[k] !in unwritable
    ensures |w| < |files| ==> files[|w|] in unwritable
  {
    if files == [] || files[0] in unwritable then []
    else [Write(files[0], bytes)] + WritesUntilFailure(files[1..], bytes, unwritable)
  }

  /** What one image of the loop leads to: skipped for a non-matching url,
      the end of the loop on a decoding or file failure (after the writes
      that succeeded), or its writes. */
  datatype Step = Skip | Stop(written: seq<Write>, error: string) | Continue(written: seq<Write>)

  /** The body of the loop of `process_images` for one image. */
  function ImageStep(image: FalImage, timestamp: string, extraFolder: Option<string>, unwritable: set<string>): Step {
    match image.parsed
    case None => Skip
    case Some(url) =>
      match url.decoded
      case None => Stop([], "base64 decoding failed")
      case Some(bytes) =>
        var files := ImageFiles(timestamp, MimeExtension(url.mime), extraFolder);
        var written := WritesUntilFailure(files, bytes, unwritable);
        if |written| < |files| then Stop(written, "Error creating file: " + files[|written|])
        else Continue(written)
  }

  /** The loop of `process_images` from image `i` on. */
  function ProcessFrom(images: seq<FalImage>, i: nat, timestamp: string, extraFolder: Option<string>, unwritable: set<string>): (r: ProcessOutcome)
    requires i <= |images|
    ensures forall k | 0 <= k < |r.skipped| :: i <= r.skipped[k] < |images| && images[r.skipped[k]].parsed.None?
    ensures forall k | 0 <= k < |r.skipped| - 1 :: r.skipped[k] < r.skipped[k + 1]
    ensures forall w | w in r.writes :: w.path !in unwritable
    ensures r.result.Ok? ==> forall k | i <= k < |images| :: images[k].parsed.None? ==> k in r.skipped
    decreases |images| - i
  {
    if i == |images| then ProcessOutcome([], [], Ok(()))
    else match ImageStep(images[i], timestamp, extraFolder, unwritable)
      case Skip => Prepend([], [i], ProcessFrom(images, i + 1, timestamp, extraFolder, unwritable))
      case Stop(written, error) => ProcessOutcome(written, [], Err(error))
      case Continue(written) => Prepend(written, [], ProcessFrom(images, i + 1, timestamp, extraFolder, unwritable))
  }

  /** `rest` after the writes `w` and the skipped indices `s` of earlier images. */
  function Prepend(w: seq<Write>, s: seq<nat>, rest: ProcessOutcome): ProcessOutcome {
    ProcessOutcome(w + rest.writes, s + rest.skipped, rest.result)
  }

  lemma PrependNothing(rest: ProcessOutcome)
    ensures Prepend([], [], rest) == rest
  {
    assert [] + rest.writes == rest.writes;
    assert [] + rest.skipped == rest.skipped;
  }

  lemma PrependToEnd(w: seq<Write>, s: seq<nat>, w2: seq<Write>, result: Result<()>)
    ensures Prepend(w, s, ProcessOutcome(w2, [], result)) == ProcessOutcome(w + w2, s, result)
  {
    assert s + [] == s;
  }

  lemma PrependTwice(w1: seq<Write>, s1: seq<nat>, w2: seq<Write>, s2: seq<nat>, rest: ProcessOutcome)
    ensures Prepend(w1, s1, Prepend(w2, s2, rest)) == Prepend(w1 + w2, s1 + s2, rest)
  {
    ConcatAssoc(w1, w2, rest.writes);
    ConcatAssoc(s1, s2, rest.skipped);
  }

  /** `process_images`: `images` is the parsed response, or None when the
      response file cannot be read or parsed. Images whose url does not
      match are skipped with a message; a decoding or file failure aborts. */
  method ProcessImages(timestamp: string, images: Option<seq<FalImage>>, extraFolder: Option<string>, unwritable: set<string>)
    returns (writes: seq<Write>, skipped: seq<nat>, result: Result<()>)
    ensures images.None? ==> writes == [] && skipped == [] && result.Err?
    ensures images.Some? ==> ProcessOutcome(writes, skipped, result) == ProcessFrom(images.value, 0, timestamp, extraFolder, unwritable)
  {
    if images.None? {
      return [], [], Err("could not read the fal response");
    }
    var imgs := images.value;
    ghost var whole := ProcessFrom(imgs, 0, timestamp, extraFolder, unwritable);
    writes, skipped := [], [];
    PrependNothing(whole);
    var i := 0;
    while i < |imgs|
      invariant 0 <= i <= |imgs|
      invariant whole == Prepend(writes, skipped, ProcessFrom(imgs, i, timestamp, extraFolder, unwritable))
    {
      ghost var next := ProcessFrom(imgs, i + 1, timestamp, extraFolder, unwritable);
      var step := ImageStep(imgs[i], timestamp, extraFolder, unwritable);
      match step {
        case Skip =>
          PrependTwice(writes, skipped, [], [i], next);
          assert writes + [] == writes;
          skipped := skipped + [i];
        case Stop(written, error) =>
          PrependToEnd(writes, skipped, written, Err(error));
          return writes + written, skipped, Err(error);
        case Continue(written) =>
          PrependTwice(writes, skipped, written, [], next);
          assert skipped + [] == skipped;
          writes := writes + written;
      }
      i := i + 1;
    }
    PrependToEnd(writes, skipped, [], Ok(()));
    assert writes + [] == writes;
    result := Ok(());
  }

  /** An image with a non-matching url is only skipped: the images after it
      are processed exactly as if it were not there. */
  lemma SkippedImageDoesNotStop(images: seq<FalImage>, i: nat, timestamp: string, extraFolder: Option<string>, unwritable: set<string>)
    requires i < |images| && images[i].parsed.None?
    ensures var here := ProcessFrom(images, i, timestamp, extraFolder, unwritable);
      var next := ProcessFrom(images, i + 1, timestamp, extraFolder, unwritable);
      here.writes == next.writes && here.result == next.result && here.skipped == [i] + next.skipped
  {
  }

  /** With every file writable and every matching url decodable, processing
      succeeds and writes each matching image to its two or three files. */
  lemma {:induction false} AllWritableSucceeds(images: seq<FalImage>, i: nat, timestamp: string, extraFolder: Option<string>)
    requires i <= |images|
    requires forall k | i <= k < |images| :: images[k].parsed.Some? ==> images[k].parsed.value.decoded.Some?
    ensures var out := ProcessFrom(images, i, timestamp, extraFolder, {});
      && out.result == Ok(())
      && |out.writes| == (if extraFolder.Some? then 3 else 2) * MatchingCount(images, i)
      && |out.skipped| == |images| - i - MatchingCount(images, i)
    decreases |images| - i
  {
    if i < |images| {
      AllWritableSucceeds(images, i + 1, timestamp, extraFolder);
    }
  }

  /** The number of images from `i` on whose url matches the pattern. */
  function MatchingCount(images: seq<FalImage>, i: nat): (n: nat)
    requires i <= |images|
    ensures n <= |images| - i
    decreases |images| - i
  {
    if i == |images| then 0 else (if images[i].parsed.Some? then 1 else 0) + MatchingCount(images, i + 1)
  }
}
