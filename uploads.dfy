/**
 * What the two thought forms (src/components/thoughts/add-thought.tsx and
 * src/components/explore/thought-modal.tsx) share: files, recorded audio and its 2 MiB cap,
 * clipboard items, and the multipart body they send.
 */
module Uploads {
  import opened Wrappers
  import opened Text
  import opened Seqs

  /** A file picked or pasted by the user. */
  datatype File = File(name: string, mimeType: string, size: nat)

  /** A finished audio recording; only its byte count is observed. */
  datatype AudioBlob = AudioBlob(size: nat)

  /** `2 * 1024 * 1024` bytes. */
  const MaxAudioBytes: nat := 2 * 1024 * 1024

  predicate AudioTooLarge(blob: AudioBlob) {
    blob.size > MaxAudioBytes
  }

  /** The name the recording is uploaded under. */
  const AudioFileName := "audio.webm"

  /** One clipboard entry: its MIME type and what `getAsFile()` yields. */
  datatype ClipboardItem = ClipboardItem(itemType: string, asFile: Option<File>)

  /** `item.type.indexOf("image") !== -1`. */
  predicate IsImageItem(item: ClipboardItem) {
    Contains(item.itemType, "image")
  }

  /** An image item that yields a file: the item a paste takes. */
  predicate IsPastable(item: ClipboardItem) {
    IsImageItem(item) && item.asFile.Some?
  }

  /** The file of the first pastable item; none when the clipboard has no items or no such item. */
  function PastedImage(items: Option<seq<ClipboardItem>>): (f: Option<File>)
    ensures f.Some? ==> items.Some?
    ensures f.Some? ==>
      (exists i :: 0 <= i < |items.value| && IsImageItem(items.value[i]) && items.value[i].asFile == f
                   && forall j :: 0 <= j < i ==> !IsPastable(items.value[j]))
    ensures f.None? <==> items.None? || forall i :: 0 <= i < |items.value| ==> !IsPastable(items.value[i])
  {
    match items
    case None => None
    case Some(list) =>
      match FindFirst(list, IsPastable)
      case None => None
      case Some(i) => list[i].asFile
  }

  /** A value in a multipart body. */
  datatype FormValue = StringValue(s: string) | FileValue(file: File) | BlobValue(blob: AudioBlob, fileName: string)

  /** One `formData.append(name, value)`. */
  datatype FormEntry = FormEntry(name: string, value: FormValue)

  /** The entry a field contributes: none when the field is absent. */
  function Entry(name: string, value: Option<FormValue>): (r: seq<FormEntry>)
    ensures value.None? ==> r == []
    ensures value.Some? ==> r == [FormEntry(name, value.value)]
  {
    match value
    case None => []
    case Some(v) => [FormEntry(name, v)]
  }

  /** The value of the first entry called `name`, as `formData.get(name)` returns it. */
  function FieldNamed(form: seq<FormEntry>, name: string): Option<FormValue> {
    if form == [] then None
    else if form[0].name == name then Some(form[0].value)
    else FieldNamed(form[1..], name)
  }

  /** The lookup finds a value exactly when some entry has the name, and then it is the first one's. */
  lemma {:induction false} FieldNamedFindsFirst(form: seq<FormEntry>, name: string)
    ensures FieldNamed(form, name).None? <==> forall i :: 0 <= i < |form| ==> form[i].name != name
    ensures FieldNamed(form, name).Some? ==>
      (exists i :: 0 <= i < |form| && form[i] == FormEntry(name, FieldNamed(form, name).value)
                   && forall j :: 0 <= j < i ==> form[j].name != name)
  {
    if form != [] && form[0].name != name {
      FieldNamedFindsFirst(form[1..], name);
      if FieldNamed(form, name).Some? {
        var i :| 0 <= i < |form[1..]| && form[1..][i] == FormEntry(name, FieldNamed(form, name).value)
          && forall j :: 0 <= j < i ==> form[1..][j].name != name;
        assert form[i + 1] == form[1..][i];
      }
    }
  }

  lemma {:induction false} FieldNamedAppend(a: seq<FormEntry>, b: seq<FormEntry>, name: string)
    ensures FieldNamed(a + b, name) == if FieldNamed(a, name).Some? then FieldNamed(a, name) else FieldNamed(b, name)
  {
    if a == [] {
      assert a + b == b;
    } else {
      assert (a + b)[0] == a[0];
      assert (a + b)[1..] == a[1..] + b;
      FieldNamedAppend(a[1..], b, name);
    }
  }

  lemma FieldNamedEntry(n: string, value: Option<FormValue>, name: string)
    ensures FieldNamed(Entry(n, value), name) == if n == name then value else None
  {
  }

  /** Looking a name up after one more optional field: an earlier entry wins. */
  lemma FieldNamedAfter(a: seq<FormEntry>, n: string, value: Option<FormValue>, name: string)
    ensures FieldNamed(a + Entry(n, value), name)
      == if FieldNamed(a, name).Some? then FieldNamed(a, name) else if n == name then value else None
  {
    FieldNamedAppend(a, Entry(n, value), name);
    FieldNamedEntry(n, value, name);
  }

  /** The recording as the audio field: present when there is one. */
  function AudioValue(audio: Option<AudioBlob>): (v: Option<FormValue>)
    ensures audio.None? <==> v.None?
    ensures audio.Some? ==> v.value.BlobValue? && v.value.blob == audio.value && v.value.fileName == AudioFileName
  {
    match audio
    case None => None
    case Some(b) => Some(BlobValue(b, AudioFileName))
  }

  /** The image file as the image field: present when a file is chosen. */
  function ImageValue(file: Option<File>): (v: Option<FormValue>)
    ensures file.None? <==> v.None?
    ensures file.Some? ==> v.value == FileValue(file.value)
  {
    match file
    case None => None
    case Some(f) => Some(FileValue(f))
  }
}
