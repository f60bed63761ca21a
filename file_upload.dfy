/** Attachment handling: the list of selected files, adding files from a file
    picker or the first image on the clipboard, removing and clearing, and turning
    the selection into message parts for the AI service. Reading a file is a
    function parameter. */
module FileUpload {
  import opened Js
  import opened AIService
  import opened FileUtils

  /** A browser file: its name, its MIME type and its size in bytes. */
  datatype File = File(name: string, mimeType: string, size: nat)

  /** A selected attachment. `kind` is "image" or "file"; an image carries the data
      URL of its contents as `preview`. */
  datatype FileData = FileData(file: File, name: string, kind: string, size: nat, preview: Option<string>)

  /** The outcome of reading a file's contents. */
  datatype ReadResult = Read(content: string) | ReadFailed

  /** A clipboard item: its MIME type and the file it holds, if any. */
  datatype ClipboardItem = ClipboardItem(mimeType: string, file: Option<File>)

  predicate IsImageType(mimeType: string) {
    StartsWith(mimeType, "image/")
  }

  /** The attachment made for a picked file: an image with its data URL when the
      MIME type is an image type, a plain file without preview otherwise. */
  function Selected(file: File, dataUrl: File -> string): (r: FileData)
    ensures r.file == file && r.name == file.name && r.size == file.size
    ensures r.kind == "image" <==> IsImageType(file.mimeType)
    ensures r.kind == "file" <==> !IsImageType(file.mimeType)
    ensures r.preview.Some? <==> IsImageType(file.mimeType)
    ensures r.preview.Some? ==> r.preview.value == dataUrl(file)
  {
    if IsImageType(file.mimeType) then FileData(file, file.name, "image", file.size, Some(dataUrl(file)))
    else FileData(file, file.name, "file", file.size, None)
  }

  function SelectedWith(dataUrl: File -> string): File -> FileData {
    f => Selected(f, dataUrl)
  }

  /** The index of the first clipboard item of an image type. */
  function FirstImageIndex(items: seq<ClipboardItem>): (r: Option<nat>)
    ensures r.Some? ==>
      (r.value < |items| && IsImageType(items[r.value].mimeType)
       && forall j :: 0 <= j < r.value ==> !IsImageType(items[j].mimeType))
    ensures r.None? ==> forall j :: 0 <= j < |items| ==> !IsImageType(items[j].mimeType)
    decreases |items|
  {
    if items == [] then None
    else if IsImageType(items[0].mimeType) then Some(0)
    else
      match FirstImageIndex(items[1..])
      case Some(k) => Some(k + 1)
      case None => None
  }

  /** `file.type.split('/')[1]` in a template string: "undefined" without a slash. */
  function Subtype(mimeType: string): string {
    SplitField(mimeType, '/', 1).GetOr("undefined")
  }

  /** The attachment made for a pasted image file. */
  function Pasted(file: File, now: nat, dataUrl: File -> string): FileData {
    FileData(file, "pasted-image-" + NatToString(now) + "." + Subtype(file.mimeType), "image", file.size,
             Some(dataUrl(file)))
  }

  /** What a paste adds: the first image item's file, if it has one, and nothing else. */
  function PastedFrom(items: seq<ClipboardItem>, now: nat, dataUrl: File -> string): (r: seq<FileData>)
    ensures |r| <= 1
    ensures r != [] ==>
      (FirstImageIndex(items).Some? && items[FirstImageIndex(items).value].file.Some?
       && r == [Pasted(items[FirstImageIndex(items).value].file.value, now, dataUrl)])
    ensures FirstImageIndex(items).Some? && items[FirstImageIndex(items).value].file.Some? ==>
      r == [Pasted(items[FirstImageIndex(items).value].file.value, now, dataUrl)]
    ensures FirstImageIndex(items).None? ==> r == []
  {
    match FirstImageIndex(items)
    case Some(k) => if items[k].file.Some? then [Pasted(items[k].file.value, now, dataUrl)] else []
    case None => []
  }

  /** A pasted image is named after the time and its subtype, with its kind set. */
  lemma PastedImageName(file: File, now: nat, dataUrl: File -> string, sub: string)
    requires file.mimeType == "image/" + sub && '/' !in sub
    ensures Pasted(file, now, dataUrl).name == "pasted-image-" + NatToString(now) + "." + sub
    ensures Pasted(file, now, dataUrl).kind == "image"
  {
    var m := file.mimeType;
    assert m[..6] == "image/" && m[6..] == sub;
    assert IndexOf(m, '/') == 5 by {
      assert m[5] == '/';
      assert forall j :: 0 <= j < 5 ==> m[j] != '/';
    }
    SecondField(m, '/');
  }

  // ---------------------------------------------------------------------------
  // Message parts

  /** The second comma-separated field of a data URL: its Base64 payload. */
  function Payload(preview: string): string {
    SplitField(preview, ',', 1).GetOr("")
  }

  /** The text part given for a file that was read. */
  function FileText(name: string, content: string): string {
    "\n\n[File: " + name + "]\n" + content + "\n[End of " + name + "]\n"
  }

  /** The text part given for a file that could not be read. */
  function ReadErrorText(name: string): string {
    "\n\n[File: " + name + " - Error reading file content]\n"
  }

  /** The part sent for one attachment: an image as inline data cut from its
      preview, with the file's MIME type; any other file as its contents, read as
      text or as a data URL by the read mode, between a header and a footer naming
      it; a file that cannot be read as a placeholder naming it. */
  function PartFor(fd: FileData, read: (File, bool) -> ReadResult): (r: Part)
    ensures fd.kind == "image" ==>
      r == InlinePart(InlineData(Payload(fd.preview.GetOr("")), fd.file.mimeType))
    ensures fd.kind != "image" ==>
      var res := read(fd.file, ReadsAsText(fd.file.mimeType, fd.file.name));
      (res.Read? ==> r == TextPart(FileText(fd.name, res.content)))
      && (res.ReadFailed? ==> r == TextPart(ReadErrorText(fd.name)))
  {
    if fd.kind == "image" then
      InlinePart(InlineData(Payload(fd.preview.GetOr("")), fd.file.mimeType))
    else
      match read(fd.file, ReadsAsText(fd.file.mimeType, fd.file.name))
      case Read(content) => TextPart(FileText(fd.name, content))
      case ReadFailed => TextPart(ReadErrorText(fd.name))
  }

  function PartWith(read: (File, bool) -> ReadResult): FileData -> Part {
    fd => PartFor(fd, read)
  }

  /** The payload is recovered from a Base64 data URL: for a MIME type and a payload
      without commas, cutting `data:<type>;base64,<payload>` gives back the payload. */
  lemma PayloadOfDataUrl(mimeType: string, payload: string)
    requires ',' !in mimeType && ',' !in payload
    ensures Payload("data:" + mimeType + ";base64," + payload) == payload
  {
    var head := "data:" + mimeType + ";base64";
    var url := head + "," + payload;
    assert url == "data:" + mimeType + ";base64," + payload;
    assert ',' !in head by {
      assert forall j :: 0 <= j < |head| ==> head[j] == (if j < 5 then "data:"[j]
        else if j < 5 + |mimeType| then mimeType[j - 5] else ";base64"[j - 5 - |mimeType|]);
    }
    assert url[|head|] == ',';
    assert IndexOf(url, ',') == |head| by {
      assert forall j :: 0 <= j < |head| ==> url[j] == head[j];
    }
    assert url[|head| + 1..] == payload;
    SecondField(url, ',');
  }

  /** The file's contents can be cut back out of its text part. */
  lemma FileTextHoldsContent(name: string, content: string)
    ensures var header := "\n\n[File: " + name + "]\n";
      var t := FileText(name, content);
      t[..|header|] == header && t[|header|..|header| + |content|] == content
      && t[|header| + |content|..] == "\n[End of " + name + "]\n"
  {
  }

  class Uploader {
    var selectedFiles: seq<FileData>

    /** Every image attachment carries its preview. */
    ghost predicate Valid()
      reads this
    {
      forall i :: 0 <= i < |selectedFiles| ==>
        selectedFiles[i].kind == "image" ==> selectedFiles[i].preview.Some?
    }

    constructor()
      ensures selectedFiles == [] && Valid()
    {
      selectedFiles := [];
    }

    /** `handleFileSelect`: the picked files are added after the ones already
        selected, in order, each classified by its MIME type. */
    method HandleFileSelect(files: seq<File>, dataUrl: File -> string)
      requires Valid()
      modifies this
      ensures Valid()
      ensures selectedFiles == old(selectedFiles) + Map(files, SelectedWith(dataUrl))
    {
      selectedFiles := selectedFiles + Map(files, SelectedWith(dataUrl));
    }

    /** `handlePaste`: the first clipboard item of an image type, and no other, is
        added when it holds a file; the default paste is prevented exactly when there
        is such an item. No clipboard data changes nothing. */
    method HandlePaste(items: Option<seq<ClipboardItem>>, now: nat, dataUrl: File -> string)
      returns (prevented: bool)
      requires Valid()
      modifies this
      ensures Valid()
      ensures items.None? ==> !prevented && selectedFiles == old(selectedFiles)
      ensures items.Some? ==>
        (prevented <==> FirstImageIndex(items.value).Some?)
        && selectedFiles == old(selectedFiles) + PastedFrom(items.value, now, dataUrl)
    {
      prevented := false;
      if items.None? {
        return;
      }
      var list := items.value;
      var i := 0;
      while i < |list|
        invariant 0 <= i <= |list|
        invariant forall j :: 0 <= j < i ==> !IsImageType(list[j].mimeType)
        invariant selectedFiles == old(selectedFiles) && !prevented
      {
        var item := list[i];
        if IsImageType(item.mimeType) {
          prevented := true;
          assert FirstImageIndex(list) == Some(i) by {
            var k := FirstImageIndex(list);
            assert k.Some?;
            assert !(k.value < i);
            assert !(k.value > i);
          }
          if item.file.Some? {
            var file := item.file.value;
            selectedFiles := selectedFiles + [Pasted(file, now, dataUrl)];
          }
          return;
        }
        i := i + 1;
      }
    }

    /** `removeFile`: only the attachment at `index` goes, the rest stay in order; an
        index outside the list changes nothing. */
    method RemoveFile(index: int)
      requires Valid()
      modifies this
      ensures Valid()
      ensures selectedFiles == RemoveIndex(old(selectedFiles), index)
    {
      selectedFiles := RemoveIndex(selectedFiles, index);
      assert forall i :: 0 <= i < |selectedFiles| ==> selectedFiles[i] in old(selectedFiles);
    }

    method ClearFiles()
      modifies this
      ensures Valid()
      ensures selectedFiles == []
    {
      selectedFiles := [];
    }

    /** `processFilesForAI`: one part per attachment, in the order of the selection. */
    method ProcessFilesForAI(read: (File, bool) -> ReadResult) returns (parts: seq<Part>)
      requires Valid()
      ensures parts == Map(selectedFiles, PartWith(read))
      ensures forall i :: 0 <= i < |selectedFiles| && selectedFiles[i].kind == "image" ==>
        parts[i] == InlinePart(InlineData(Payload(selectedFiles[i].preview.value), selectedFiles[i].file.mimeType))
    {
      parts := [];
      for i := 0 to |selectedFiles|
        invariant parts == Map(selectedFiles[..i], PartWith(read))
      {
        MapSnoc(selectedFiles[..i], selectedFiles[i], PartWith(read));
        assert selectedFiles[..i + 1] == selectedFiles[..i] + [selectedFiles[i]];
        parts := parts + [PartFor(selectedFiles[i], read)];
      }
      assert selectedFiles[..|selectedFiles|] == selectedFiles;
    }
  }
}
