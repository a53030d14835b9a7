/** The `/api/identify` endpoint: check the multipart form, save the upload,
    run the identification worker for the requested kind, turn its stdout into
    an answer, and remove the upload whatever happened. */
module Identify {
  import opened PyJson
  import opened Http
  import opened RunScript

  /** What the form carried: whether an `image` file part exists, the
      `id_type` field if present, and the uploaded file's name. */
  datatype Request = Request(hasImage: bool, idType: Option<string>, filename: string)

  /** `script_map`: the identification kinds and their workers. */
  const ScriptMap: map<string, string> :=
    map["animal" := "animal_identification.py", "bird" := "bird_identification.py",
        "flora" := "flora_identification.py"]

  datatype Validation = Reject(response: Response) | Launch(script: string)

  /** Lines 139-160: the checks, in their order, before anything is saved. */
  function Validate(req: Request): (v: Validation)
    ensures v.Launch? <==>
              req.hasImage && req.idType.Some? && req.filename != "" && req.idType.value in ScriptMap
    ensures v.Launch? ==> v.script == ScriptMap[req.idType.value]
    ensures !req.hasImage ==> v == Reject(Failure(400, "No image file provided"))
    ensures req.hasImage && req.idType.None? ==>
              v == Reject(Failure(400, "Identification type (id_type) missing"))
    ensures req.hasImage && req.idType.Some? && req.filename == "" ==>
              v == Reject(Failure(400, "No selected file"))
    ensures req.hasImage && req.idType.Some? && req.filename != "" && req.idType.value !in ScriptMap ==>
              v == Reject(Failure(400, "Invalid identification type: " + req.idType.value))
  {
    if !req.hasImage then Reject(Failure(400, "No image file provided"))
    else if req.idType.None? then Reject(Failure(400, "Identification type (id_type) missing"))
    else if req.filename == "" then Reject(Failure(400, "No selected file"))
    else if req.idType.value !in ScriptMap then
      Reject(Failure(400, "Invalid identification type: " + req.idType.value))
    else Launch(ScriptMap[req.idType.value])
  }

  /** The worker reported an error in its own JSON: a dict whose `"error"` is truthy. */
  predicate ReportsError(j: Json) {
    j.JObj? && "error" in j.fields && Truthy(j.fields["error"])
  }

  /** Lines 178-197: the worker's result, and what `json.loads` made of its
      stdout, decide the answer. */
  function Outcome(script: string, result: RunResult, parsed: Parsed, render: Json -> string): (r: Response)
    ensures result.success && result.output != "" && parsed.Parsed? && !ReportsError(parsed.value) ==>
              r == Success(map["data" := parsed.value])
    ensures result.success && result.output != "" && parsed.Parsed? && ReportsError(parsed.value) ==>
              r == Failure(500, "Identification failed: " + Str(parsed.value.fields["error"], render))
    ensures result.success && result.output != "" && parsed.DecodeError? ==>
              r == Failure(500, "Script " + script + " ran but output was not valid JSON.\nOutput:\n" + result.output)
    ensures !result.success ==> r == Failure(500, "Script execution failed: " + result.error)
    ensures result.success && result.output == "" ==>
              r == Failure(500, "Script " + script + " ran successfully but produced no output.")
    ensures IsSuccess(r) <==> result.success && result.output != "" && parsed.Parsed? && !ReportsError(parsed.value)
  {
    if result.success && result.output != "" then
      match parsed
      case Parsed(j) =>
        if ReportsError(j) then Failure(500, "Identification failed: " + Str(j.fields["error"], render))
        else Success(map["data" := j])
      case DecodeError =>
        Failure(500, "Script " + script + " ran but output was not valid JSON.\nOutput:\n" + result.output)
    else if !result.success then Failure(500, "Script execution failed: " + result.error)
    else Failure(500, "Script " + script + " ran successfully but produced no output.")
  }

  /** The upload folder, as the set of file paths in it. */
  class UploadFolder {
    var files: set<string>

    constructor (files: set<string>)
      ensures this.files == files
    {
      this.files := files;
    }

    /** `file.save(path)`; `saveError` is the exception it raised, if any. */
    method Save(path: string, saveError: Option<string>) returns (ok: bool)
      modifies this
      ensures ok <==> saveError.None?
      ensures files == if ok then old(files) + {path} else old(files)
    {
      ok := saveError.None?;
      if ok {
        files := files + {path};
      }
    }

    /** The `finally` block: remove the upload if it exists; a failed removal
        is only logged. */
    method CleanUp(path: string, removeFails: bool)
      modifies this
      ensures files == if removeFails then old(files) else old(files) - {path}
    {
      if path in files && !removeFails {
        files := files - {path};
      }
    }
  }

  /** `identify_object`.  The upload's unique path, the save and removal
      failures, the worker's result and the JSON oracle's answer are inputs.
      Nothing is saved for a rejected request; once saved, the upload is
      gone afterwards unless its removal failed. */
  method IdentifyObject(folder: UploadFolder, req: Request, path: string, saveError: Option<string>,
                        removeFails: bool, result: RunResult, parsed: Parsed, render: Json -> string)
    returns (response: Response)
    modifies folder
    ensures Validate(req).Reject? ==> response == Validate(req).response && folder.files == old(folder.files)
    ensures Validate(req).Launch? && saveError.Some? ==>
              response == Failure(500, "Error processing identification request: " + saveError.value)
    ensures Validate(req).Launch? && saveError.None? ==>
              response == Outcome(Validate(req).script, result, parsed, render)
    ensures Validate(req).Launch? ==>
              folder.files == if !removeFails then old(folder.files) - {path}
                              else if saveError.None? then old(folder.files) + {path}
                              else old(folder.files)
  {
    var v := Validate(req);
    if v.Reject? {
      return v.response;
    }
    var saved := folder.Save(path, saveError);
    if saved {
      response := Outcome(v.script, result, parsed, render);
    } else {
      response := Failure(500, "Error processing identification request: " + saveError.value);
    }
    folder.CleanUp(path, removeFails);
  }
}
