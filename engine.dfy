/**
 * The embedded AbiWord canvas. Its layout, document model and file filters
 * are not part of this model: the canvas is seen only through the calls the
 * activity and its toolbars make on it, kept in order in `calls`, and through
 * the plain text it would extract from the current document, `text`.
 */
module Engine {

  /** One call made on the canvas. `InvokeCmd` drops the two trailing zero
      arguments that every `invoke_cmd` in the activity passes. */
  datatype Call =
    | LoadFile(uri: string, mimeType: string)
    | Save(uri: string, mimeType: string, options: string)
    | GetContent(extension: string)
    | InvokeCmd(command: string, argument: string)
    | SetFontName(font: string)
    | SetFontSize(size: string)
    | SetStyle(style: string)

  class Canvas {
    /** Every call made on the canvas so far, oldest first. */
    var calls: seq<Call>
    /** The document's plain text, as `get_content(".txt")` returns it. */
    var text: string

    constructor (text: string)
      ensures calls == [] && this.text == text
    {
      calls := [];
      this.text := text;
    }

    /** Makes a call that returns nothing the activity uses. */
    method Invoke(c: Call)
      modifies this
      ensures calls == old(calls) + [c]
      ensures text == old(text)
    {
      calls := calls + [c];
    }

    /** `get_content(extension_or_mimetype=...)`: the document as text. */
    method Content(extension: string) returns (content: string)
      modifies this
      ensures content == text
      ensures calls == old(calls) + [GetContent(extension)]
      ensures text == old(text)
    {
      content := text;
      calls := calls + [GetContent(extension)];
    }
  }
}
