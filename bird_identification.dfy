/** The bird-identification worker: it sends the image to a vision model,
    cleans the reply, and prints exactly one JSON document, either the
    model's own JSON or one of three error envelopes.  Failures before the
    call end the process with status 1 and a message on stderr. */
module BirdIdentification {
  import opened PyStr
  import opened PyJson
  import opened Fences

  /** What reading `response.text` gave: the text, or an exception from the call. */
  datatype Reply = Text(text: string) | Raised(message: string)

  /** A set-up step (`genai.configure`, loading the model). */
  datatype Step = Done | Failed(message: string)

  /** What `encode_image` met when opening the file. */
  datatype ImageRead = ImageRead | ImageMissing | ImageError(message: string)

  const EmptyReplyError: string := "Received empty response from API."
  const ParseError: string := "Failed to parse JSON response from API."
  const CallErrorPrefix: string := "An error occurred during API call: "

  /** The envelope for a failure: a dict with one `"error"` text. */
  function ErrorEnvelope(message: string): Json {
    JObj(map["error" := JStr(message)])
  }

  /** Lines 76-98: the `result` value printed for a reply, where `parse`
      stands for `json.loads`. */
  function Envelope(reply: Reply, parse: string -> Parsed): (result: Json)
    ensures reply == Text("") ==> result == ErrorEnvelope(EmptyReplyError)
    ensures reply.Raised? ==> result == ErrorEnvelope(CallErrorPrefix + reply.message)
    ensures reply.Text? && reply.text != "" && parse(StripFences(reply.text)).DecodeError? ==>
              result == JObj(map["error" := JStr(ParseError), "raw_response" := JStr(reply.text)])
  {
    match reply
    case Raised(message) => ErrorEnvelope(CallErrorPrefix + message)
    case Text(text) =>
      if text == "" then ErrorEnvelope(EmptyReplyError)
      else match parse(StripFences(text))
        case Parsed(value) => value
        case DecodeError => JObj(map["error" := JStr(ParseError), "raw_response" := JStr(text)])
  }

  /** The model's JSON is passed through untouched exactly when the call
      gave a non-empty text whose fence-stripped form parses. */
  predicate PassesThrough(reply: Reply, parse: string -> Parsed) {
    reply.Text? && reply.text != "" && parse(StripFences(reply.text)).Parsed?
  }

  /** The reader only ever sees the fence-stripped reply: two readers that
      agree on that text give the same envelope. */
  lemma ReaderSeesStrippedText(text: string, p1: string -> Parsed, p2: string -> Parsed)
    requires p1(StripFences(text)) == p2(StripFences(text))
    ensures Envelope(Text(text), p1) == Envelope(Text(text), p2)
  {}

  /** Every envelope that does not pass the model's JSON through is a dict
      whose `"error"` is a non-empty text. */
  lemma ErrorEnvelopesCarryError(reply: Reply, parse: string -> Parsed)
    requires !PassesThrough(reply, parse)
    ensures Envelope(reply, parse).JObj?
    ensures "error" in Envelope(reply, parse).fields
    ensures Envelope(reply, parse).fields["error"].JStr?
    ensures Envelope(reply, parse).fields["error"].s != ""
  {
    if reply.Raised? {
      assert Envelope(reply, parse).fields["error"].s == CallErrorPrefix + reply.message;
    }
  }

  /** How the process ends: its exit status, the JSON documents printed to
      stdout, and the lines written to stderr. */
  datatype Exit = Exit(code: int, documents: seq<Json>, stderr: seq<string>)

  /** The whole script.  Configuration, model loading and reading the image
      happen in that order; the first failure exits with status 1. */
  function Run(imagePath: string, configure: Step, load: Step, image: ImageRead,
               reply: Reply, parse: string -> Parsed): (e: Exit)
    ensures e.code == 0 <==> configure.Done? && load.Done? && image.ImageRead?
    ensures e.code != 0 ==> e.code == 1 && e.documents == [] && |e.stderr| == 1
    ensures e.code == 0 ==> e.documents == [Envelope(reply, parse)] && e.stderr == []
    ensures image.ImageMissing? && configure.Done? && load.Done? ==>
              e.stderr == ["Error: Image file not found at " + imagePath]
  {
    if configure.Failed? then Exit(1, [], ["Error configuring GenAI: " + configure.message])
    else if load.Failed? then Exit(1, [], ["Error loading model: " + load.message])
    else match image
      case ImageMissing => Exit(1, [], ["Error: Image file not found at " + imagePath])
      case ImageError(message) => Exit(1, [], ["Error encoding image: " + message])
      case ImageRead => Exit(0, [Envelope(reply, parse)], [])
  }
}

/** How the backend's identify endpoint treats what the bird worker prints. */
module BirdThroughBackend {
  import opened PyJson
  import opened Http
  import opened RunScript
  import opened BirdIdentification
  import Identify

  /** When the worker printed an error envelope and the backend's reader
      recovers that document, the client gets a 500 naming the worker's error. */
  lemma ErrorEnvelopeBecomes500(reply: Reply, parse: string -> Parsed, result: RunResult, render: Json -> string)
    requires !PassesThrough(reply, parse)
    requires result.success && result.output != ""
    ensures Envelope(reply, parse).JObj? && "error" in Envelope(reply, parse).fields
    ensures Identify.Outcome("bird_identification.py", result, Parsed(Envelope(reply, parse)), render)
         == Failure(500, "Identification failed: " + Envelope(reply, parse).fields["error"].s)
  {
    ErrorEnvelopesCarryError(reply, parse);
  }

  /** When the model's JSON passed through and carries no truthy `"error"`,
      the client gets it unchanged under `"data"`. */
  lemma ModelJsonReachesClient(reply: Reply, parse: string -> Parsed, result: RunResult, render: Json -> string)
    requires PassesThrough(reply, parse)
    requires !Identify.ReportsError(Envelope(reply, parse))
    requires result.success && result.output != ""
    ensures Identify.Outcome("bird_identification.py", result, Parsed(Envelope(reply, parse)), render)
         == Success(map["data" := parse(Fences.StripFences(reply.text)).value])
  {}

  /** A worker that exits with status 1 never reaches the JSON reader: the
      client gets the run failure. */
  lemma FailedRunBecomes500(imagePath: string, configure: Step, load: Step, image: ImageRead,
                            reply: Reply, parse: string -> Parsed, stdout: string, stderr: string,
                            description: string, scriptPath: string, parsed: Parsed, render: Json -> string)
    requires !(configure.Done? && load.Done? && image.ImageRead?)
    ensures var exit := BirdIdentification.Run(imagePath, configure, load, image, reply, parse);
            var result := RunScript.Run("bird_identification.py", scriptPath,
                                        Exited(exit.code, stdout, stderr, description));
            Identify.Outcome("bird_identification.py", result, parsed, render)
              == Failure(500, "Script execution failed: " + result.error)
  {}
}
