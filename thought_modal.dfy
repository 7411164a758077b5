/**
 * The edit dialog of one thought (src/components/explore/thought-modal.tsx): it loads the thought
 * named by its `thought_id` prop, edits title, content, image and recording, and saves or deletes
 * it, reporting the outcome to the list through its `updateThought`/`deleteThought` callbacks.
 */
module ThoughtModal {
  import opened Wrappers
  import opened Types
  import opened Seqs
  import opened Uploads

  /** The body of the update request: title and content always, then the image and the recording. */
  function SaveForm(edited: Thought, file: Option<File>, audio: Option<AudioBlob>): seq<FormEntry> {
    Entry("title", Some(StringValue(edited.title))) + Entry("text_content", Some(StringValue(edited.textContent)))
    + Entry("image", ImageValue(file)) + Entry("audio", AudioValue(audio))
  }

  /** Which fields the update request carries. */
  lemma SaveFormFields(edited: Thought, file: Option<File>, audio: Option<AudioBlob>)
    ensures FieldNamed(SaveForm(edited, file, audio), "title") == Some(StringValue(edited.title))
    ensures FieldNamed(SaveForm(edited, file, audio), "text_content") == Some(StringValue(edited.textContent))
    ensures FieldNamed(SaveForm(edited, file, audio), "image") == ImageValue(file)
    ensures FieldNamed(SaveForm(edited, file, audio), "audio") == AudioValue(audio)
  {
    var a := Entry("title", Some(StringValue(edited.title)));
    var b := Entry("text_content", Some(StringValue(edited.textContent)));
    var c := Entry("image", ImageValue(file));
    var d := Entry("audio", AudioValue(audio));
    forall name | name in ["title", "text_content", "image", "audio"]
      ensures FieldNamed(a + b + c + d, name)
        == if name == "title" then Some(StringValue(edited.title))
           else if name == "text_content" then Some(StringValue(edited.textContent))
           else if name == "image" then ImageValue(file)
           else AudioValue(audio)
    {
      FieldNamedEntry("title", Some(StringValue(edited.title)), name);
      FieldNamedAfter(a, "text_content", Some(StringValue(edited.textContent)), name);
      FieldNamedAfter(a + b, "image", ImageValue(file), name);
      FieldNamedAfter(a + b + c, "audio", AudioValue(audio), name);
    }
  }

  /**
   * The Save button's `disabled`: while saving, or when the loaded thought has an empty title or
   * content. With nothing loaded the optional chains yield `undefined`, so only saving counts.
   */
  function SaveDisabled(saveLoading: bool, edited: Option<Thought>): (d: bool)
    ensures saveLoading ==> d
    ensures edited.None? ==> (d <==> saveLoading)
    ensures edited.Some? ==> (d <==> saveLoading || edited.value.title == "" || edited.value.textContent == "")
  {
    saveLoading || (edited.Some? && (|edited.value.textContent| == 0 || |edited.value.title| == 0))
  }

  class ThoughtModalState {
    /** The `thought_id` prop. */
    var thoughtId: string
    /** The parent's `isModalOpen`, written through `setIsModalOpen`. */
    var isModalOpen: bool
    var editedThought: Option<Thought>
    var imageFile: Option<File>
    var audioBlob: Option<AudioBlob>
    var audioURL: Option<string>
    var isRecording: bool
    var saveLoading: bool
    var deleteLoading: bool
    var isPasting: bool
    /** The thought as it was when the running recording started, which `onstop` captured. */
    var recordingSnapshot: Option<Thought>
    /** The draft `handleSaveThought` captured when it sent the update request. */
    var savingThought: Option<Thought>

    constructor(thoughtId: string, isModalOpen: bool)
      ensures this.thoughtId == thoughtId && this.isModalOpen == isModalOpen
      ensures editedThought.None? && imageFile.None? && audioBlob.None? && audioURL.None?
      ensures !isRecording && !saveLoading && !deleteLoading && !isPasting
    {
      this.thoughtId := thoughtId;
      this.isModalOpen := isModalOpen;
      editedThought := None;
      imageFile := None;
      audioBlob := None;
      audioURL := None;
      isRecording := false;
      saveLoading := false;
      deleteLoading := false;
      isPasting := false;
      recordingSnapshot := None;
      savingThought := None;
    }

    /**
     * The effect on a new `thought_id`: a non-empty id drops the loaded thought and the pending
     * media and starts the fetch; the empty id does nothing.
     */
    method ThoughtIdChanged(id: string) returns (fetchStarted: bool)
      modifies this`thoughtId, this`editedThought, this`imageFile, this`audioBlob, this`audioURL
      ensures thoughtId == id
      ensures fetchStarted <==> id != ""
      ensures id != "" ==> editedThought.None? && imageFile.None? && audioBlob.None? && audioURL.None?
      ensures id == "" ==>
        editedThought == old(editedThought) && imageFile == old(imageFile)
        && audioBlob == old(audioBlob) && audioURL == old(audioURL)
    {
      thoughtId := id;
      fetchStarted := false;
      if id != "" {
        editedThought := None;
        imageFile := None;
        audioBlob := None;
        audioURL := None;
        fetchStarted := true;
      }
    }

    /** The fetch's answer: the thought is loaded only when the response is ok. */
    method ThoughtFetched(responseOk: bool, data: Thought)
      modifies this`editedThought
      ensures responseOk ==> editedThought == Some(data)
      ensures !responseOk ==> editedThought == old(editedThought)
    {
      if responseOk {
        editedThought := Some(data);
      }
    }

    /** Typing in the title field, which exists only while a thought is loaded. */
    method EditTitle(title: string)
      requires editedThought.Some?
      modifies this`editedThought
      ensures editedThought == Some(old(editedThought).value.(title := title))
    {
      editedThought := Some(editedThought.value.(title := title));
    }

    /** Typing in the content field, which exists only while a thought is loaded. */
    method EditContent(content: string)
      requires editedThought.Some?
      modifies this`editedThought
      ensures editedThought == Some(old(editedThought).value.(textContent := content))
    {
      editedThought := Some(editedThought.value.(textContent := content));
    }

    /**
     * The synchronous part of `handleSaveThought`: nothing without a loaded thought; otherwise
     * loading starts and the body is assembled, unless the recording is over the cap, which is
     * alerted and dropped and ends the save without a request. A sent request is built from the
     * draft as it is now, and that draft is the one the handler reports when the request succeeds.
     */
    method BeginSave() returns (request: Option<seq<FormEntry>>, alerted: bool)
      modifies this`saveLoading, this`audioBlob, this`audioURL, this`savingThought
      ensures editedThought.None? ==>
        request.None? && !alerted && saveLoading == old(saveLoading)
        && audioBlob == old(audioBlob) && audioURL == old(audioURL)
      ensures editedThought.Some? && old(audioBlob).Some? && AudioTooLarge(old(audioBlob).value) ==>
        request.None? && alerted && !saveLoading && audioBlob.None? && audioURL.None?
      ensures editedThought.Some? && !(old(audioBlob).Some? && AudioTooLarge(old(audioBlob).value)) ==>
        request == Some(SaveForm(editedThought.value, imageFile, audioBlob)) && !alerted && saveLoading
        && audioBlob == old(audioBlob) && audioURL == old(audioURL)
      ensures request.Some? ==> savingThought == editedThought
      ensures request.None? ==> savingThought == old(savingThought)
    {
      request, alerted := None, false;
      if editedThought.None? {
        return;
      }
      saveLoading := true;
      var form: seq<FormEntry> := [FormEntry("title", StringValue(editedThought.value.title))];
      form := form + [FormEntry("text_content", StringValue(editedThought.value.textContent))];
      if imageFile.Some? {
        form := form + [FormEntry("image", FileValue(imageFile.value))];
      }
      if audioBlob.Some? {
        if AudioTooLarge(audioBlob.value) {
          alerted := true;
          audioBlob := None;
          audioURL := None;
          saveLoading := false;
          return;
        }
        form := form + [FormEntry("audio", BlobValue(audioBlob.value, AudioFileName))];
      }
      assert form == SaveForm(editedThought.value, imageFile, audioBlob);
      request := Some(form);
      savingThought := editedThought;
    }

    /**
     * The update request's answer. On success the dialog closes and the draft the request was
     * built from goes to `updateThought`, whatever was edited while the request was pending. A
     * failed request first parses the error body: when that parse throws (`errorBodyParsed` false)
     * the handler stops before loading ends, so Save stays disabled.
     */
    method FinishSave(responseOk: bool, errorBodyParsed: bool) returns (updated: Option<Thought>)
      modifies this`isModalOpen, this`saveLoading
      ensures responseOk ==> updated == savingThought && !isModalOpen
      ensures !responseOk ==> updated.None? && isModalOpen == old(isModalOpen)
      ensures responseOk || errorBodyParsed ==> !saveLoading
      ensures !responseOk && !errorBodyParsed ==> saveLoading == old(saveLoading)
    {
      updated := None;
      if responseOk {
        isModalOpen := false;
        updated := savingThought;
      } else if !errorBodyParsed {
        return;
      }
      saveLoading := false;
    }

    /**
     * `handleDeleteThought`: only with a loaded thought; a successful request hands the prop id to
     * `deleteThought` and closes the dialog.
     */
    method HandleDelete(responseOk: bool) returns (requestSent: bool, deleted: Option<string>)
      modifies this`isModalOpen, this`deleteLoading
      ensures requestSent <==> editedThought.Some?
      ensures deleted.Some? <==> requestSent && responseOk
      ensures deleted.Some? ==> deleted.value == thoughtId && !isModalOpen
      ensures deleted.None? ==> isModalOpen == old(isModalOpen)
      ensures requestSent ==> !deleteLoading
      ensures !requestSent ==> deleteLoading == old(deleteLoading)
    {
      requestSent, deleted := false, None;
      if editedThought.Some? {
        deleteLoading := true;
        requestSent := true;
        if responseOk {
          deleted := Some(thoughtId);
          isModalOpen := false;
        }
        deleteLoading := false;
      }
    }

    /** Cancel closes the dialog and keeps every edit. */
    method Cancel()
      modifies this`isModalOpen
      ensures !isModalOpen
    {
      isModalOpen := false;
    }

    /** "Remove image", shown only with a loaded thought: no file, no image URL. */
    method RemoveImage()
      requires editedThought.Some?
      modifies this`imageFile, this`editedThought
      ensures imageFile.None?
      ensures editedThought == Some(old(editedThought).value.(imageUrl := ""))
    {
      imageFile := None;
      editedThought := Some(editedThought.value.(imageUrl := ""));
    }

    /** The file input: its first file becomes the image and, with a loaded thought, its preview. */
    method FileChosen(files: Option<seq<File>>, objectUrl: File -> string)
      modifies this`imageFile, this`editedThought
      ensures files.Some? && |files.value| > 0 ==> imageFile == Some(files.value[0])
      ensures files.Some? && |files.value| > 0 && old(editedThought).Some? ==>
        editedThought == Some(old(editedThought).value.(imageUrl := objectUrl(files.value[0])))
      ensures !(files.Some? && |files.value| > 0 && old(editedThought).Some?) ==> editedThought == old(editedThought)
      ensures !(files.Some? && |files.value| > 0) ==> imageFile == old(imageFile)
    {
      if files.Some? && |files.value| > 0 {
        imageFile := Some(files.value[0]);
        if editedThought.Some? {
          editedThought := Some(editedThought.value.(imageUrl := objectUrl(files.value[0])));
        }
      }
    }

    /**
     * `handlePaste`: every paste is intercepted and shows the indicator; the first image item
     * that yields a file becomes the image (and the preview), switches the indicator off and ends
     * the scan. With items present a timer to switch it off is always scheduled.
     */
    method HandlePaste(items: Option<seq<ClipboardItem>>, objectUrl: File -> string) returns (timerScheduled: bool)
      modifies this`imageFile, this`editedThought, this`isPasting
      ensures timerScheduled <==> items.Some?
      ensures PastedImage(items).Some? ==> imageFile == PastedImage(items) && !isPasting
      ensures PastedImage(items).Some? && old(editedThought).Some? ==>
        editedThought == Some(old(editedThought).value.(imageUrl := objectUrl(PastedImage(items).value)))
      ensures PastedImage(items).None? ==> imageFile == old(imageFile) && editedThought == old(editedThought)
      ensures PastedImage(items).None? ==> isPasting == items.Some?
    {
      isPasting := true;
      if items.None? {
        isPasting := false;
        return false;
      }
      var list := items.value;
      var i := 0;
      while i < |list|
        invariant 0 <= i <= |list|
        invariant forall j :: 0 <= j < i ==> !IsPastable(list[j])
        invariant imageFile == old(imageFile) && editedThought == old(editedThought) && isPasting
      {
        var item := list[i];
        if IsImageItem(item) && item.asFile.Some? {
          imageFile := item.asFile;
          if editedThought.Some? {
            editedThought := Some(editedThought.value.(imageUrl := objectUrl(item.asFile.value)));
          }
          isPasting := false;
          assert FindFirst(list, IsPastable) == Some(i);
          break;
        }
        i := i + 1;
      }
      timerScheduled := true;
    }

    /** A paste timer switches the indicator off. */
    method PasteTimerFired()
      modifies this`isPasting
      ensures !isPasting
    {
      isPasting := false;
    }

    /**
     * The record button. Starting remembers the thought as it is now, for `onstop`. Stopping
     * checks the blob already held (the previous recording) against the cap, alerting and
     * dropping it, and clearing the thought's audio URL, when it is too large.
     */
    method ToggleRecording() returns (alerted: bool)
      modifies this`isRecording, this`recordingSnapshot, this`audioBlob, this`audioURL, this`editedThought
      ensures isRecording == !old(isRecording)
      ensures !old(isRecording) ==>
        !alerted && recordingSnapshot == editedThought && editedThought == old(editedThought)
        && audioBlob == old(audioBlob) && audioURL == old(audioURL)
      ensures old(isRecording) ==> recordingSnapshot == old(recordingSnapshot)
      ensures old(isRecording) ==> (alerted <==> old(audioBlob).Some? && AudioTooLarge(old(audioBlob).value))
      ensures old(isRecording) && alerted ==>
        audioBlob.None? && audioURL.None?
        && (old(editedThought).Some? ==> editedThought == Some(old(editedThought).value.(audioUrl := "")))
        && (old(editedThought).None? ==> editedThought.None?)
      ensures old(isRecording) && !alerted ==>
        audioBlob == old(audioBlob) && audioURL == old(audioURL) && editedThought == old(editedThought)
    {
      alerted := false;
      if !isRecording {
        recordingSnapshot := editedThought;
        isRecording := true;
      } else {
        if audioBlob.Some? && AudioTooLarge(audioBlob.value) {
          alerted := true;
          audioBlob := None;
          audioURL := None;
          if editedThought.Some? {
            editedThought := Some(editedThought.value.(audioUrl := ""));
          }
        }
        isRecording := false;
      }
    }

    /**
     * The recorder's `onstop`: the new recording and its URL become current, and the thought
     * captured when recording started, with the new audio URL, replaces the edited one.
     */
    method RecordingStopped(blob: AudioBlob, url: string)
      modifies this`audioBlob, this`audioURL, this`editedThought
      ensures audioBlob == Some(blob) && audioURL == Some(url)
      ensures recordingSnapshot.Some? ==> editedThought == Some(recordingSnapshot.value.(audioUrl := url))
      ensures recordingSnapshot.None? ==> editedThought == old(editedThought)
    {
      audioBlob := Some(blob);
      audioURL := Some(url);
      if recordingSnapshot.Some? {
        editedThought := Some(recordingSnapshot.value.(audioUrl := url));
      }
    }
  }

  /**
   * Because `onstop` writes back the thought captured when recording started, a title typed while
   * recording is lost when the recording stops.
   */
  method TitleEditDuringRecordingIsLost(loaded: Thought, newTitle: string, blob: AudioBlob, url: string)
    returns (modal: ThoughtModalState)
    requires newTitle != loaded.title
    ensures modal.editedThought == Some(loaded.(audioUrl := url))
    ensures modal.editedThought.value.title != newTitle
  {
    modal := new ThoughtModalState("t", true);
    modal.ThoughtFetched(true, loaded);
    var _ := modal.ToggleRecording();
    modal.EditTitle(newTitle);
    var _ := modal.ToggleRecording();
    modal.RecordingStopped(blob, url);
  }

  /**
   * A failed save whose error body is not JSON leaves loading on, so Save stays disabled even for
   * a complete thought.
   */
  method SaveStuckAfterUnparsableError(loaded: Thought) returns (modal: ThoughtModalState)
    ensures modal.saveLoading && modal.isModalOpen
    ensures SaveDisabled(modal.saveLoading, modal.editedThought)
  {
    modal := new ThoughtModalState("t", true);
    modal.ThoughtFetched(true, loaded);
    var _, _ := modal.BeginSave();
    var _ := modal.FinishSave(false, false);
  }

  /**
   * A successful save reports the draft whose title and content the request carried, so a title
   * typed while the request is pending is neither sent nor reported.
   */
  method SaveReportsSentDraft(loaded: Thought, newTitle: string)
    returns (modal: ThoughtModalState, request: Option<seq<FormEntry>>, updated: Option<Thought>)
    requires newTitle != loaded.title
    ensures request.Some? && updated == Some(loaded)
    ensures FieldNamed(request.value, "title") == Some(StringValue(updated.value.title))
    ensures FieldNamed(request.value, "text_content") == Some(StringValue(updated.value.textContent))
    ensures modal.editedThought == Some(loaded.(title := newTitle)) && !modal.isModalOpen
  {
    modal := new ThoughtModalState("t", true);
    modal.ThoughtFetched(true, loaded);
    var alerted;
    request, alerted := modal.BeginSave();
    SaveFormFields(loaded, None, None);
    modal.EditTitle(newTitle);
    updated := modal.FinishSave(true, true);
  }
}
