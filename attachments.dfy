/** Files the user attaches to a chat message or to an answer. */
module Attachments {

  /** A picked `File`: its display name and MIME type. Its bytes are read by the browser
      and are not part of the model. */
  datatype Attachment = Attachment(name: string, mimeType: string)

  /** `files.map(f => f.name)`. */
  function Names(files: seq<Attachment>): (names: seq<string>)
    ensures |names| == |files|
    ensures forall i :: 0 <= i < |files| ==> names[i] == files[i].name
  {
    if files == [] then [] else [files[0].name] + Names(files[1..])
  }
}
