/** The message composer of the chat tab: the attachment slot, the send guard,
    and the `isSending` flag that covers one send from its dispatch to its
    settlement (success or failure). The awaited `onSend` is split into the
    dispatch (`BeginSend`) and its outcome (`SendSettled`). */
module ChatInput {
  import opened Common
  import opened MessageWindow

  /** The argument `{text, file}` handed to `onSend`: the trimmed text (absent
      when the form had no text field) and the selected file. */
  datatype SendPayload = SendPayload(text: Option<string>, file: Option<Attachment>)

  /** The trimmed text of a form submission, absent when the field is. */
  function TrimmedText(data: Option<string>): (r: Option<string>)
    ensures r.None? <==> data.None?
    ensures r.Some? ==> r.value == Trim(data.value) && (r.value == [] <==> IsBlank(data.value))
  {
    match data
    case None => None
    case Some(t) => TrimEmptyIffBlank(t); Some(Trim(t))
  }

  /** The payload is worth sending: a non-empty trimmed text or a file. */
  predicate HasContent(text: Option<string>, file: Option<Attachment>) {
    (text.Some? && text.value != "") || file.Some?
  }

  /** The preview the composer shows for the selected file: none without a
      file, otherwise the file's kind by MIME prefix. */
  function PreviewKind(file: Option<Attachment>): (r: Option<MessageKind>)
    ensures r.None? <==> file.None?
    ensures r.Some? ==> r.value != Text
    ensures r == Some(Image) <==> file.Some? && StartsWith(file.value.mime, "image/")
    ensures r == Some(Video) <==> file.Some? && StartsWith(file.value.mime, "video/")
    ensures r == Some(Audio) <==> file.Some? && StartsWith(file.value.mime, "audio/")
  {
    match file
    case None => None
    case Some(f) => Some(KindOfMime(f.mime))
  }

  /** The kind previewed for a file is the `messageType` the chat tab sends
      for it. */
  lemma PreviewMatchesSentKind(file: Option<Attachment>)
    requires file.Some?
    ensures PreviewKind(file) == Some(KindOfSend(file))
  {
  }

  class Composer {
    /** The `disabled` prop. */
    var disabled: bool
    var selectedFile: Option<Attachment>
    var isSending: bool
    /** How many times the form has been reset. */
    var resets: nat
    /** Every payload handed to `onSend`, oldest first. */
    var sent: seq<SendPayload>

    ghost predicate Valid()
      reads this
    {
      isSending ==> |sent| > 0 && HasContent(sent[|sent| - 1].text, sent[|sent| - 1].file)
    }

    constructor (disabled: bool)
      ensures Valid()
      ensures this.disabled == disabled && selectedFile == None && !isSending && resets == 0 && sent == []
    {
      this.disabled := disabled;
      selectedFile, isSending, resets, sent := None, false, 0, [];
    }

    /** `handleFileSelect`: ignored while disabled; otherwise the first chosen
        file, if any, becomes the selected file. */
    method FileSelect(files: Option<seq<Attachment>>)
      requires Valid()
      modifies this`selectedFile
      ensures Valid()
      ensures selectedFile ==
        if !disabled && files.Some? && |files.value| > 0 then Some(files.value[0]) else old(selectedFile)
    {
      if disabled {
        return;
      }
      if files.Some? && |files.value| > 0 {
        selectedFile := Some(files.value[0]);
      }
    }

    /** `handleRemoveFile`. */
    method RemoveFile()
      requires Valid()
      modifies this`selectedFile
      ensures Valid()
      ensures selectedFile == None
    {
      selectedFile := None;
    }

    /** `handleSend` up to its `await`: nothing happens while disabled, while a
        send is in flight, or with a blank text and no file; otherwise the
        trimmed text and the file are handed to `onSend` and `isSending` is
        raised. */
    method BeginSend(data: Option<string>) returns (started: bool)
      requires Valid()
      modifies this`isSending, this`sent
      ensures Valid()
      ensures started <==> !disabled && !old(isSending) && HasContent(TrimmedText(data), selectedFile)
      ensures started ==> isSending && sent == old(sent) + [SendPayload(TrimmedText(data), selectedFile)]
      ensures !started ==> isSending == old(isSending) && sent == old(sent)
    {
      if disabled || isSending {
        return false;
      }
      var text := TrimmedText(data);
      if !HasContent(text, selectedFile) {
        return false;
      }
      isSending := true;
      sent := sent + [SendPayload(text, selectedFile)];
      started := true;
    }

    /** The rest of `handleSend`, when `onSend` settles: on success the form is
        reset and the file cleared; on failure both are kept. Either way the
        `finally` lowers `isSending`. */
    method SendSettled(succeeded: bool)
      requires Valid() && isSending
      modifies this`isSending, this`resets, this`selectedFile
      ensures Valid()
      ensures !isSending
      ensures succeeded ==> resets == old(resets) + 1 && selectedFile == None
      ensures !succeeded ==> resets == old(resets) && selectedFile == old(selectedFile)
    {
      if succeeded {
        resets := resets + 1;
        selectedFile := None;
      }
      isSending := false;
    }
  }

  /** A send that fails keeps the attachment, so submitting again hands the
      same file to `onSend`; a second submit while the first is in flight is
      ignored. */
  method RetryAfterFailure(f: Attachment) returns (payloads: seq<SendPayload>, ignored: bool, fileAfter: Option<Attachment>)
    ensures payloads == [SendPayload(Some(""), Some(f)), SendPayload(None, Some(f))]
    ensures ignored
    ensures fileAfter == None
  {
    var c := new Composer(false);
    c.FileSelect(Some([f]));
    var first := c.BeginSend(Some("  "));
    assert Trim("  ") == [] by { TrimEmptyIffBlank("  "); }
    assert first;
    var again := c.BeginSend(Some("x"));
    ignored := !again;
    c.SendSettled(false);
    var second := c.BeginSend(None);
    assert second;
    c.SendSettled(true);
    payloads, fileAfter := c.sent, c.selectedFile;
  }
}
