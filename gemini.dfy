/**
 * The request side of the AI analysis service: the ordered request parts,
 * the empty-answer check, and the base64 payload taken out of a data URL.
 */
module Gemini {
  import opened Wrappers
  import opened Text

  /** A request part: a piece of text, or inline binary data with its MIME type. */
  datatype Part = TextPart(text: string) | InlineData(data: string, mimeType: string)

  /** How an analysis can fail: no answer text, or any error of the call itself. */
  datatype ServiceError = EmptyResponse | CallFailed

  /** The arguments of one `analyzeTransactionSource(textInput, imageBase64?, mimeType?)` call. */
  datatype AnalysisCall = AnalysisCall(text: string, imageBase64: Option<string>, mimeType: Option<string>)

  const DefaultMimeType: string := "image/jpeg"

  /** Label put in front of the user's text when it is sent along. */
  const TextLabel: string := "附加文本信息: "

  /** The `mimeType` parameter after its default value has been applied. */
  function MimeTypeOrDefault(mimeType: Option<string>): string
  {
    if mimeType.Some? then mimeType.value else DefaultMimeType
  }

  /**
   * Builds `parts`: the instructions first, then the labelled text if there is
   * any, then the image if there is one. The wording of the instructions is not
   * modelled; it is passed in.
   */
  method BuildParts(instructions: string, textInput: string, imageBase64: Option<string>, mimeType: Option<string>)
    returns (parts: seq<Part>)
    ensures |parts| == 1 + (if textInput != "" then 1 else 0) + (if Present(imageBase64) then 1 else 0)
    ensures 1 <= |parts| <= 3
    ensures parts[0] == TextPart(instructions)
    ensures textInput != "" <==> |parts| > 1 && parts[1] == TextPart(TextLabel + textInput)
    ensures Present(imageBase64) <==> parts[|parts| - 1].InlineData?
    ensures Present(imageBase64) ==> parts[|parts| - 1] == InlineData(imageBase64.value, MimeTypeOrDefault(mimeType))
    ensures forall i :: 0 <= i < |parts| - 1 ==> parts[i].TextPart?
  {
    var mime := MimeTypeOrDefault(mimeType);
    parts := [TextPart(instructions)];
    if textInput != "" {
      parts := parts + [TextPart(TextLabel + textInput)];
    }
    if imageBase64.Some? && imageBase64.value != "" {
      parts := parts + [InlineData(imageBase64.value, mime)];
    }
  }

  /** `response.text`: an absent or empty answer is an error, anything else is handed on to the JSON parser. */
  function AnswerText(text: Option<string>): (r: Result<string, ServiceError>)
    ensures r.Success? <==> Present(text)
    ensures r.Success? ==> r.value == text.value
    ensures r.Failure? ==> r.error == EmptyResponse
  {
    if text.Some? && text.value != "" then Success(text.value) else Failure(EmptyResponse)
  }

  /** `dataUrl.split(',')[1]`: the second comma-separated field, or `undefined` when there is no comma. */
  function Base64Payload(dataUrl: string): (r: Option<string>)
    ensures r.None? <==> ',' !in dataUrl
    ensures r.Some? ==> ',' !in r.value
  {
    var fields := Split(dataUrl, ',');
    JoinSplit(dataUrl, ',');
    if |fields| > 1 then
      assert dataUrl[|fields[0]|] == ',';
      Some(fields[1])
    else
      None
  }

  /** The payload is exactly the text between the first comma and the next one (or the end). */
  lemma PayloadBetweenCommas(head: string, payload: string, rest: string)
    requires ',' !in head && ',' !in payload
    requires rest == [] || rest[0] == ','
    ensures Base64Payload(head + [','] + payload + rest) == Some(payload)
  {
    assert head + [','] + payload + rest == head + [','] + (payload + rest);
    SplitAtFirstSeparator(head, ',', payload + rest);
    if rest == [] {
      assert payload + rest == payload;
      SplitWithoutSeparator(payload, ',');
    } else {
      assert payload + rest == payload + [','] + rest[1..];
      SplitAtFirstSeparator(payload, ',', rest[1..]);
    }
  }

  /** What `FileReader.readAsDataURL` produces for base64 data gives that data back. */
  lemma DataUrlRoundTrip(mimeType: string, data: string)
    requires ',' !in mimeType && ',' !in data
    ensures Base64Payload("data:" + mimeType + ";base64," + data) == Some(data)
  {
    var head := "data:" + mimeType + ";base64";
    assert "data:" + mimeType + ";base64," + data == head + [','] + data + [];
    PayloadBetweenCommas(head, data, []);
  }
}
