/**
 * The message input: the text and image-preview state, the "text or image"
 * send guard that also disables the submit button, the payload it hands to
 * the chat store, and the image picker's type check.
 */
module MessageInput {
  import opened Domain

  /** The characters `String.prototype.trim` strips: white space and line terminators. */
  predicate IsJsSpace(c: char)
  {
    c == '\t' || c == '\n' || c == '\U{000B}' || c == '\U{000C}' || c == '\r' || c == ' '
    || c == '\U{00A0}' || c == '\U{1680}' || ('\U{2000}' <= c <= '\U{200A}')
    || c == '\U{2028}' || c == '\U{2029}' || c == '\U{202F}' || c == '\U{205F}'
    || c == '\U{3000}' || c == '\U{FEFF}'
  }

  ghost predicate AllSpace(s: string)
  {
    forall i :: 0 <= i < |s| ==> IsJsSpace(s[i])
  }

  /** Every character of `s` from index `lo` up to `hi` is white space. */
  ghost predicate SpaceBetween(s: string, lo: int, hi: int)
  {
    forall i :: lo <= i < hi && 0 <= i < |s| ==> IsJsSpace(s[i])
  }

  /** Scanning forward from `k`: the index of the first character that is not white space, or `|s|`. */
  function SkipSpace(s: string, k: nat): (n: nat)
    requires k <= |s|
    ensures k <= n <= |s|
    ensures SpaceBetween(s, k, n)
    ensures n < |s| ==> !IsJsSpace(s[n])
    decreases |s| - k
  {
    if k < |s| && IsJsSpace(s[k]) then SkipSpace(s, k + 1) else k
  }

  /**
   * Scanning backward from `k`, not past `lo`: the index just after the last
   * character before `k` that is not white space, or `lo`.
   */
  function SkipSpaceBack(s: string, lo: nat, k: nat): (n: nat)
    requires lo <= k <= |s|
    ensures lo <= n <= k
    ensures SpaceBetween(s, n, k)
    ensures n > lo ==> !IsJsSpace(s[n - 1])
    decreases k
  {
    if k > lo && IsJsSpace(s[k - 1]) then SkipSpaceBack(s, lo, k - 1) else k
  }

  /**
   * `s.trim()`: `s` without the white space at either end. The result is a
   * slice of `s` with only white space before and after it, and it neither
   * starts nor ends with white space, so it is the one such slice; it is
   * empty exactly when `s` is all white space.
   */
  function Trim(s: string): (r: string)
    ensures exists i, j :: 0 <= i <= j <= |s| && r == s[i..j] && SpaceBetween(s, 0, i) && SpaceBetween(s, j, |s|)
    ensures r == [] <==> AllSpace(s)
    ensures r != [] ==> !IsJsSpace(r[0]) && !IsJsSpace(r[|r| - 1])
  {
    var i := SkipSpace(s, 0);
    var j := SkipSpaceBack(s, i, |s|);
    assert i == j ==> AllSpace(s);
    assert AllSpace(s) ==> i == |s|;
    assert s[i..j] == s[i..j] && SpaceBetween(s, 0, i) && SpaceBetween(s, j, |s|);
    s[i..j]
  }

  /**
   * The send guard and the submit button's `disabled`: the text is all white
   * space and there is no image preview.
   */
  function SubmitDisabled(text: string, preview: Option<string>): (d: bool)
    ensures d <==> AllSpace(text) && !Truthy(preview)
  {
    Trim(text) == "" && !Truthy(preview)
  }

  /**
   * The payload handed to the chat store: the trimmed text unless it is
   * empty, and the preview as it is. Whenever the guard lets a send through,
   * the payload passes the server's content check.
   */
  function BuildPayload(text: string, preview: Option<string>): (p: Payload)
    ensures p.image == preview
    ensures p.text.None? <==> AllSpace(text)
    ensures p.text.Some? ==> p.text.value == Trim(text) && Truthy(p.text)
    ensures !SubmitDisabled(text, preview) ==> HasContent(p)
  {
    var trimmed := Trim(text);
    Payload(if trimmed == "" then None else Some(trimmed), preview)
  }

  class Input {
    var text: string
    var imagePreview: Option<string>
    /** The hidden file input's `value`. */
    var fileInputValue: string

    constructor ()
      ensures text == "" && imagePreview == None && fileInputValue == ""
    {
      text, imagePreview, fileInputValue := "", None, "";
    }

    /** The text field's `onChange`. */
    method SetText(value: string)
      modifies this`text
      ensures text == value
    {
      text := value;
    }

    /** `handleSendMessage`: send the payload and reset the input, unless there is nothing to send. */
    method HandleSendMessage() returns (sent: Option<Payload>)
      modifies this`text, this`imagePreview, this`fileInputValue
      ensures sent.None? <==> SubmitDisabled(old(text), old(imagePreview))
      ensures sent.None? ==>
        text == old(text) && imagePreview == old(imagePreview) && fileInputValue == old(fileInputValue)
      ensures sent.Some? ==>
        sent.value == BuildPayload(old(text), old(imagePreview)) && HasContent(sent.value) &&
        text == "" && imagePreview == None && fileInputValue == ""
    {
      if SubmitDisabled(text, imagePreview) {
        return None;
      }
      sent := Some(BuildPayload(text, imagePreview));
      text, imagePreview, fileInputValue := "", None, "";
    }

    /**
     * `handleImageChange`: a non-image file is refused and the input cleared;
     * an image starts a read whose completion is `OnPreviewLoaded`. The
     * preview itself is never set here.
     */
    method HandleImageChange(file: Option<FileInfo>) returns (readStarted: bool)
      modifies this`fileInputValue
      ensures readStarted <==> file.Some? && IsImageType(file.value)
      ensures file.Some? && !IsImageType(file.value) ==> fileInputValue == ""
      ensures file.None? || readStarted ==> fileInputValue == old(fileInputValue)
    {
      if file.None? {
        return false;
      }
      if !IsImageType(file.value) {
        fileInputValue := "";
        return false;
      }
      readStarted := true;
    }

    /** The reader's `onloadend`: its result (None when it is null) becomes the preview. */
    method OnPreviewLoaded(result: Option<string>)
      modifies this`imagePreview
      ensures imagePreview == result
    {
      imagePreview := result;
    }

    /** `removeImage`. */
    method RemoveImage()
      modifies this`imagePreview, this`fileInputValue
      ensures imagePreview == None && fileInputValue == ""
    {
      imagePreview, fileInputValue := None, "";
    }
  }
}
