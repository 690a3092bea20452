/** The upload dialog's form logic: what choosing a file does to the form, and what the submit
    button does for each of the three tabs (file, URL, note). The ingest request is replaced
    by its outcome, which the caller supplies: it succeeds, or it fails with the server's
    `error` field (if the response carried one) and the exception's message. */
module UploadForm {
  import opened Wrappers
  import opened Text

  datatype Tab = FileTab | UrlTab | TextTab

  /** A chosen file; the form reads only its name. */
  datatype FileInfo = FileInfo(name: string)

  /** The three ingest requests. A file is sent with the raw tags text; a URL and a note are
      sent with the parsed tag list. */
  datatype IngestCall =
    | IngestFile(file: FileInfo, title: string, contentType: string, rawTags: string)
    | IngestUrl(url: string, title: string, tags: seq<string>)
    | IngestText(text: string, title: string, tags: seq<string>)

  datatype IngestOutcome = IngestOk | IngestError(responseError: Option<string>, message: string)

  const AudioExtensions: seq<string> := ["mp3", "m4a", "wav", "ogg", "flac"]

  const NoFileMessage: string := "Please select a file"
  const NoUrlMessage: string := "Please enter a URL"
  const NoTextMessage: string := "Please enter some text"
  const DefaultNoteTitle: string := "Text Note"

  // ---------------------------------------------------------------------------------------
  // Choosing a file

  /** `name.split('.').pop().toLowerCase()`. */
  function Extension(name: string): (r: string)
    ensures '.' !in r
    ensures forall k :: 0 <= k < |r| ==> !('A' <= r[k] <= 'Z')
  {
    var pieces := Split(name, '.');
    assert pieces[|pieces| - 1] in pieces;
    ToLower(pieces[|pieces| - 1])
  }

  /** The content type a chosen file gets: audio for the five audio extensions, and a
      document otherwise. */
  function ContentTypeFor(name: string): (t: string)
    ensures t == "audio" <==> Extension(name) in AudioExtensions
    ensures t == "audio" || t == "document"
  {
    if Extension(name) in AudioExtensions then "audio" else "document"
  }

  /** The extension is the lower-cased text after the last dot. */
  lemma ExtensionAfterLastDot(stem: string, ext: string)
    requires '.' !in ext
    ensures Extension(stem + "." + ext) == ToLower(ext)
  {
    SplitAppend(stem, '.', ext);
    SplitWithoutSeparator(ext, '.');
    assert stem + "." + ext == stem + ['.'] + ext;
  }

  /** A name without a dot is its own extension. */
  lemma ExtensionWithoutDot(name: string)
    requires '.' !in name
    ensures Extension(name) == ToLower(name)
  {
    SplitWithoutSeparator(name, '.');
  }

  /** A name whose last part is an audio extension, in any letter case, is audio. */
  lemma ContentTypeByLastDot(stem: string, ext: string)
    requires '.' !in ext
    ensures ContentTypeFor(stem + "." + ext) == if ToLower(ext) in AudioExtensions then "audio" else "document"
  {
    ExtensionAfterLastDot(stem, ext);
  }

  // ---------------------------------------------------------------------------------------
  // Tags

  /** One piece's contribution: its trimmed text, unless that is empty. */
  function TagOf(piece: string): (r: seq<string>)
    ensures |r| <= 1
    ensures forall t :: t in r ==> t != [] && Trimmed(t)
    ensures ',' !in piece ==> forall t :: t in r ==> ',' !in t
  {
    var t := Trim(piece);
    if t != [] then [t] else []
  }

  /** The trimmed pieces that are not empty, in order. */
  function KeepTags(pieces: seq<string>): (r: seq<string>)
    ensures forall t :: t in r ==> t != [] && Trimmed(t)
  {
    if pieces == [] then [] else TagOf(pieces[0]) + KeepTags(pieces[1..])
  }

  /** Trimming adds no character, so comma-free pieces give comma-free tags. */
  lemma {:induction false} KeepTagsNoComma(pieces: seq<string>)
    requires forall p :: p in pieces ==> ',' !in p
    ensures forall t :: t in KeepTags(pieces) ==> ',' !in t
  {
    if pieces != [] {
      assert pieces[0] in pieces;
      assert forall p :: p in pieces[1..] ==> p in pieces;
      KeepTagsNoComma(pieces[1..]);
    }
  }

  /** `tags.split(',').map(t => t.trim()).filter(Boolean)`: no tag is empty, none starts or
      ends with whitespace, and none holds a comma. */
  function ParseTags(tags: string): (r: seq<string>)
    ensures forall t :: t in r ==> t != [] && Trimmed(t) && ',' !in t
  {
    KeepTagsNoComma(Split(tags, ','));
    KeepTags(Split(tags, ','))
  }

  lemma {:induction false} KeepTagsAppend(a: seq<string>, b: seq<string>)
    ensures KeepTags(a + b) == KeepTags(a) + KeepTags(b)
  {
    if a != [] {
      assert (a + b)[1..] == a[1..] + b;
      KeepTagsAppend(a[1..], b);
    } else {
      assert a + b == b;
    }
  }

  /** Tags keep their input order: the tags of two comma-separated parts are those of the first
      part followed by those of the second. */
  lemma TagsInOrder(a: string, b: string)
    ensures ParseTags(a + "," + b) == ParseTags(a) + ParseTags(b)
  {
    assert a + "," + b == a + [','] + b;
    SplitAppend(a, ',', b);
    KeepTagsAppend(Split(a, ','), Split(b, ','));
  }

  /** One comma-free part gives its trimmed text as a tag, or nothing if that is empty. */
  lemma OneTag(part: string)
    requires ',' !in part
    ensures ParseTags(part) == if Trim(part) == [] then [] else [Trim(part)]
  {
    SplitWithoutSeparator(part, ',');
    assert [part][1..] == [];
    assert KeepTags([part]) == TagOf(part) + KeepTags([]);
  }

  // ---------------------------------------------------------------------------------------
  // Submitting

  /** The tab's required field is empty. */
  predicate MissingField(tab: Tab, file: Option<FileInfo>, url: string, text: string) {
    match tab
    case FileTab => file.None?
    case UrlTab => url == ""
    case TextTab => text == ""
  }

  function RequiredMessage(tab: Tab): string {
    match tab
    case FileTab => NoFileMessage
    case UrlTab => NoUrlMessage
    case TextTab => NoTextMessage
  }

  /** The ingest request a submit makes, or the message it throws before making one. */
  function PlanSubmit(tab: Tab, file: Option<FileInfo>, url: string, text: string,
                      title: string, tags: string, contentType: string): (r: Result<IngestCall, string>)
    ensures r.Failure? <==> MissingField(tab, file, url, text)
    ensures r.Failure? ==> r.error == RequiredMessage(tab)
    ensures r.Success? && tab == FileTab ==> r.value == IngestFile(file.value, title, contentType, tags)
    ensures r.Success? && tab == UrlTab ==> r.value == IngestUrl(url, title, ParseTags(tags))
    ensures r.Success? && tab == TextTab ==>
      r.value == IngestText(text, if title == "" then DefaultNoteTitle else title, ParseTags(tags))
  {
    match tab
    case FileTab =>
      if file.None? then Failure(NoFileMessage) else Success(IngestFile(file.value, title, contentType, tags))
    case UrlTab =>
      if url == "" then Failure(NoUrlMessage) else Success(IngestUrl(url, title, ParseTags(tags)))
    case TextTab =>
      if text == "" then Failure(NoTextMessage)
      else Success(IngestText(text, if title == "" then DefaultNoteTitle else title, ParseTags(tags)))
  }

  /** `err.response?.data?.error || err.message`. */
  function ErrorText(responseError: Option<string>, message: string): (e: string)
    ensures responseError.Some? && responseError.value != "" ==> e == responseError.value
    ensures responseError.None? || responseError.value == "" ==> e == message
  {
    if responseError.Some? && responseError.value != "" then responseError.value else message
  }

  /** The success banner for a request that went through. */
  function SuccessText(call: IngestCall): (t: string)
    ensures call.IngestFile? ==> t == "Successfully uploaded " + call.file.name
    ensures call.IngestUrl? ==> t == "Successfully ingested URL"
    ensures call.IngestText? ==> t == "Successfully saved note"
    ensures StartsWith(t, "Successfully ")
  {
    match call
    case IngestFile(file, _, _, _) => "Successfully uploaded " + file.name
    case IngestUrl(_, _, _) => "Successfully ingested URL"
    case IngestText(_, _, _) => "Successfully saved note"
  }

  class UploadModal {
    var activeTab: Tab
    var isLoading: bool
    var error: string
    var success: string
    var file: Option<FileInfo>
    var url: string
    var text: string
    var title: string
    var tags: string
    var contentType: string

    constructor ()
      ensures activeTab == FileTab && !isLoading && error == "" && success == ""
      ensures file == None && url == "" && text == "" && title == "" && tags == ""
      ensures contentType == "document"
    {
      activeTab, isLoading, error, success := FileTab, false, "", "";
      file, url, text, title, tags := None, "", "", "", "";
      contentType := "document";
    }

    /** `handleFileChange`: `selected` is the first entry of the file list, if any. */
    method HandleFileChange(selected: Option<FileInfo>)
      modifies this`file, this`title, this`contentType
      ensures selected.None? ==> file == old(file) && title == old(title) && contentType == old(contentType)
      ensures selected.Some? ==>
        && file == selected
        && title == (if old(title) == "" then selected.value.name else old(title))
        && contentType == ContentTypeFor(selected.value.name)
    {
      if selected.Some? {
        var f := selected.value;
        file := Some(f);
        if title == "" {
          title := f.name;
        }
        if Extension(f.name) in AudioExtensions {
          contentType := "audio";
        } else {
          contentType := "document";
        }
      }
    }

    /** `handleSubmit`: clear both banners, validate the tab's required field, make the
        request, and report the result. `outcome` is what the request returns if it is made.
        Returns the request made, if any, and whether `onComplete` was scheduled. */
    method HandleSubmit(outcome: IngestOutcome) returns (call: Option<IngestCall>, completeScheduled: bool)
      modifies this`isLoading, this`error, this`success
      ensures !isLoading
      ensures PlanSubmit(activeTab, file, url, text, title, tags, contentType).Failure? ==>
        && call == None && !completeScheduled && success == ""
        && error == PlanSubmit(activeTab, file, url, text, title, tags, contentType).error
      ensures PlanSubmit(activeTab, file, url, text, title, tags, contentType).Success? ==>
        call == Some(PlanSubmit(activeTab, file, url, text, title, tags, contentType).value)
      ensures call.Some? && outcome.IngestOk? ==>
        && completeScheduled && error == "" && success == SuccessText(call.value)
      ensures call.Some? && outcome.IngestError? ==>
        && !completeScheduled && success == ""
        && error == ErrorText(outcome.responseError, outcome.message)
    {
      isLoading := true;
      error := "";
      success := "";
      completeScheduled := false;
      var plan := PlanSubmit(activeTab, file, url, text, title, tags, contentType);
      match plan {
        case Failure(message) =>
          call := None;
          error := ErrorText(None, message);
        case Success(request) =>
          call := Some(request);
          match outcome {
            case IngestOk =>
              success := SuccessText(request);
              completeScheduled := true;
            case IngestError(responseError, message) =>
              error := ErrorText(responseError, message);
          }
      }
      isLoading := false;
    }
  }
}
