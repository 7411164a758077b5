/**
 * The capture form (src/components/thoughts/add-thought.tsx): a text area, an optional image,
 * an optional voice recording, and a status that switches between the form and a result screen.
 */
module AddThought {
  import opened Wrappers
  import opened Text
  import opened Seqs
  import opened Uploads

  /** The textarea's `maxLength`. */
  const MaxTextLength: nat := 3000

  datatype StatusKind = Loading | Success | Failure

  /** `formStatus`: a kind (`null` while the form is shown) and a message. */
  datatype FormStatus = FormStatus(status: Option<StatusKind>, message: string)

  const CapturingMessage := "Capturing your thought..."
  const TooLargeMessage := "Audio file is too large. Please record a shorter audio."
  const SubmittedMessage := "Thought submitted successfully"
  const FailedMessage := "Failed to submit thought"

  /** The body of the create request: text if non-empty, then the image, then the recording. */
  function SubmitForm(text: string, file: Option<File>, audio: Option<AudioBlob>): seq<FormEntry> {
    Entry("text", if text != "" then Some(StringValue(text)) else None)
    + Entry("image", ImageValue(file)) + Entry("audio", AudioValue(audio))
  }

  /** Which fields the create request carries. */
  lemma SubmitFormFields(text: string, file: Option<File>, audio: Option<AudioBlob>)
    ensures FieldNamed(SubmitForm(text, file, audio), "text") == if text != "" then Some(StringValue(text)) else None
    ensures FieldNamed(SubmitForm(text, file, audio), "image") == ImageValue(file)
    ensures FieldNamed(SubmitForm(text, file, audio), "audio") == AudioValue(audio)
    ensures |SubmitForm(text, file, audio)| <= 3
  {
    var t := if text != "" then Some(StringValue(text)) else None;
    var a := Entry("text", t);
    var b := Entry("image", ImageValue(file));
    forall name | name in ["text", "image", "audio"]
      ensures FieldNamed(SubmitForm(text, file, audio), name)
        == if name == "text" then t else if name == "image" then ImageValue(file) else AudioValue(audio)
    {
      FieldNamedEntry("text", t, name);
      FieldNamedAfter(a, "image", ImageValue(file), name);
      FieldNamedAfter(a + b, "audio", AudioValue(audio), name);
    }
  }

  /**
   * The submit button's `disabled`: the trimmed text is empty, no image is chosen and no recording
   * is running. A finished recording is not an input, so audio alone never enables submission.
   */
  function SubmitDisabled(text: string, file: Option<File>, recording: bool): (d: bool)
    ensures d <==> Trim(text) == "" && file.None? && !recording
  {
    TrimEmptyIffBlank(text);
    IsBlank(text) && file.None? && !recording
  }

  /**
   * How much of an insertion `maxLength` lets in when `remaining` characters stay around it: the
   * longest prefix that keeps the total within the limit.
   */
  function KeptInsertion(remaining: nat, inserted: string): (r: string)
    ensures r <= inserted
    ensures remaining + |inserted| <= MaxTextLength ==> r == inserted
    ensures remaining >= MaxTextLength ==> r == ""
    ensures remaining <= MaxTextLength ==> remaining + |r| <= MaxTextLength
    ensures remaining <= MaxTextLength < remaining + |inserted| ==> remaining + |r| == MaxTextLength
  {
    if remaining + |inserted| <= MaxTextLength then inserted
    else if remaining >= MaxTextLength then ""
    else inserted[..MaxTextLength - remaining]
  }

  class AddThoughtForm {
    var textThought: string
    var selectedFile: Option<File>
    var isRecording: bool
    var audioBlob: Option<AudioBlob>
    var audioURL: Option<string>
    var formStatus: FormStatus
    var isPasting: bool

    /** The form is shown only while there is no status. */
    predicate FormShown()
      reads this
    {
      formStatus.status.None?
    }

    constructor()
      ensures textThought == "" && selectedFile.None? && !isRecording
      ensures audioBlob.None? && audioURL.None? && !isPasting
      ensures formStatus == FormStatus(None, "")
      ensures FormShown()
    {
      textThought := "";
      selectedFile := None;
      isRecording := false;
      audioBlob := None;
      audioURL := None;
      formStatus := FormStatus(None, "");
      isPasting := false;
    }

    /**
     * Typing or pasting: `inserted` replaces the `removed` characters from `at`. Because of
     * `maxLength`, the textarea keeps only as much of the insertion as fits, wherever it lands,
     * and the handler stores the textarea's value.
     */
    method EditText(at: nat, removed: nat, inserted: string)
      requires at + removed <= |textThought|
      modifies this`textThought
      ensures textThought == old(textThought)[..at] + KeptInsertion(|old(textThought)| - removed, inserted)
                             + old(textThought)[at + removed..]
      ensures |old(textThought)| - removed + |inserted| <= MaxTextLength ==>
                textThought == old(textThought)[..at] + inserted + old(textThought)[at + removed..]
      ensures |old(textThought)| - removed >= MaxTextLength ==>
                textThought == old(textThought)[..at] + old(textThought)[at + removed..]
      ensures |old(textThought)| <= MaxTextLength ==> |textThought| <= MaxTextLength
    {
      var kept := KeptInsertion(|textThought| - removed, inserted);
      textThought := textThought[..at] + kept + textThought[at + removed..];
    }

    /**
     * The synchronous part of `handleSubmit`: the status becomes loading, the body is assembled,
     * and an oversized recording ends it with an error and no request.
     */
    method BeginSubmit() returns (request: Option<seq<FormEntry>>)
      modifies this`formStatus
      ensures audioBlob.Some? && AudioTooLarge(audioBlob.value) ==>
        request.None? && formStatus == FormStatus(Some(Failure), TooLargeMessage)
      ensures !(audioBlob.Some? && AudioTooLarge(audioBlob.value)) ==>
        request == Some(SubmitForm(textThought, selectedFile, audioBlob))
        && formStatus == FormStatus(Some(Loading), CapturingMessage)
    {
      formStatus := FormStatus(Some(Loading), CapturingMessage);
      var form: seq<FormEntry> := [];
      if textThought != "" {
        form := form + [FormEntry("text", StringValue(textThought))];
      }
      assert form == Entry("text", if textThought != "" then Some(StringValue(textThought)) else None);
      if selectedFile.Some? {
        form := form + [FormEntry("image", FileValue(selectedFile.value))];
      }
      assert form == Entry("text", if textThought != "" then Some(StringValue(textThought)) else None)
                     + Entry("image", ImageValue(selectedFile));
      if audioBlob.Some? {
        if AudioTooLarge(audioBlob.value) {
          formStatus := FormStatus(Some(Failure), TooLargeMessage);
          return None;
        }
        form := form + [FormEntry("audio", BlobValue(audioBlob.value, AudioFileName))];
      }
      assert form == SubmitForm(textThought, selectedFile, audioBlob);
      request := Some(form);
    }

    /** The response of the create request decides between success and error. */
    method FinishSubmit(responseOk: bool)
      modifies this`formStatus
      ensures responseOk ==> formStatus == FormStatus(Some(Success), SubmittedMessage)
      ensures !responseOk ==> formStatus == FormStatus(Some(Failure), FailedMessage)
    {
      if responseOk {
        formStatus := FormStatus(Some(Success), SubmittedMessage);
      } else {
        formStatus := FormStatus(Some(Failure), FailedMessage);
      }
    }

    /** "Add New Thought": back to an empty form, but the last recording stays attached. */
    method AddNewThought()
      modifies this`formStatus, this`textThought, this`selectedFile, this`isRecording
      ensures formStatus == FormStatus(None, "") && FormShown()
      ensures textThought == "" && selectedFile.None? && !isRecording
    {
      formStatus := FormStatus(None, "");
      textThought := "";
      selectedFile := None;
      isRecording := false;
    }

    /**
     * `handlePaste`: scans the clipboard for the first image item that yields a file and stops
     * there. Every image item met on the way turns the pasting indicator on; only a taken file
     * schedules the timer that turns it off again.
     */
    method HandlePaste(items: Option<seq<ClipboardItem>>) returns (intercepted: bool, timerScheduled: bool)
      modifies this`selectedFile, this`isPasting
      ensures PastedImage(items).Some? ==> selectedFile == PastedImage(items)
      ensures PastedImage(items).None? ==> selectedFile == old(selectedFile)
      ensures timerScheduled <==> PastedImage(items).Some?
      ensures intercepted <==> items.Some? && exists i :: 0 <= i < |items.value| && IsImageItem(items.value[i])
      ensures isPasting == (old(isPasting) || intercepted)
    {
      intercepted, timerScheduled := false, false;
      if items.None? {
        return;
      }
      var list := items.value;
      var i := 0;
      while i < |list|
        invariant 0 <= i <= |list|
        invariant forall j :: 0 <= j < i ==> !IsPastable(list[j])
        invariant intercepted <==> exists j :: 0 <= j < i && IsImageItem(list[j])
        invariant isPasting == (old(isPasting) || intercepted)
        invariant selectedFile == old(selectedFile) && !timerScheduled
      {
        var item := list[i];
        if IsImageItem(item) {
          intercepted := true;
          isPasting := true;
          if item.asFile.Some? {
            selectedFile := item.asFile;
            timerScheduled := true;
            assert FindFirst(list, IsPastable) == Some(i);
            break;
          }
        }
        i := i + 1;
      }
    }

    /** The paste timer switches the indicator off. */
    method PasteTimerFired()
      modifies this`isPasting
      ensures !isPasting
    {
      isPasting := false;
    }

    /** The file input hands over its first file, if any. */
    method FileChosen(files: Option<seq<File>>)
      modifies this`selectedFile
      ensures files.Some? && |files.value| > 0 ==> selectedFile == Some(files.value[0])
      ensures !(files.Some? && |files.value| > 0) ==> selectedFile == old(selectedFile)
    {
      if files.Some? && |files.value| > 0 {
        selectedFile := Some(files.value[0]);
      }
    }

    method RemoveImage()
      modifies this`selectedFile
      ensures selectedFile.None?
    {
      selectedFile := None;
    }

    method RemoveAudio()
      modifies this`audioBlob, this`audioURL, this`isRecording
      ensures audioBlob.None? && audioURL.None? && !isRecording
    {
      audioBlob := None;
      audioURL := None;
      isRecording := false;
    }

    /**
     * The microphone button. Starting only sets the flag. Stopping checks the size of the blob the
     * form already holds, which is the previous recording: the new one arrives later through
     * `RecordingStopped`.
     */
    method ToggleRecording()
      modifies this`isRecording, this`formStatus, this`audioBlob, this`audioURL
      ensures isRecording == !old(isRecording)
      ensures !old(isRecording) ==> formStatus == old(formStatus) && audioBlob == old(audioBlob) && audioURL == old(audioURL)
      ensures old(isRecording) && old(audioBlob).Some? && AudioTooLarge(old(audioBlob).value) ==>
        formStatus == FormStatus(Some(Failure), TooLargeMessage) && audioBlob.None? && audioURL.None?
      ensures old(isRecording) && !(old(audioBlob).Some? && AudioTooLarge(old(audioBlob).value)) ==>
        formStatus == old(formStatus) && audioBlob == old(audioBlob) && audioURL == old(audioURL)
    {
      if !isRecording {
        isRecording := true;
      } else {
        if audioBlob.Some? && AudioTooLarge(audioBlob.value) {
          formStatus := FormStatus(Some(Failure), TooLargeMessage);
          audioBlob := None;
          audioURL := None;
        }
        isRecording := false;
      }
    }

    /** The recorder's `onstop`: the finished recording and its object URL become current. */
    method RecordingStopped(blob: AudioBlob, url: string)
      modifies this`audioBlob, this`audioURL
      ensures audioBlob == Some(blob) && audioURL == Some(url)
    {
      audioBlob := Some(blob);
      audioURL := Some(url);
    }
  }

  /**
   * A first recording over the cap passes the stop-time check (which sees no earlier blob) and is
   * only refused when the form is submitted.
   */
  method OversizedRecordingCaughtAtSubmit(blob: AudioBlob, url: string)
    returns (form: AddThoughtForm, stopStatus: FormStatus, request: Option<seq<FormEntry>>)
    requires AudioTooLarge(blob)
    ensures stopStatus == FormStatus(None, "")
    ensures form.audioBlob == Some(blob)
    ensures request.None? && form.formStatus == FormStatus(Some(Failure), TooLargeMessage)
  {
    form := new AddThoughtForm();
    form.ToggleRecording();
    form.ToggleRecording();
    form.RecordingStopped(blob, url);
    stopStatus := form.formStatus;
    request := form.BeginSubmit();
  }
}
