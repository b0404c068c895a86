/** The video management screen: batch import of pasted YouTube links, the two
    video lists, the embed link for viewing, and the edit dialog. */
module VideoManagement {
  import opened Wrappers
  import opened Js
  import opened Text
  import opened BrowserStorage
  import opened Session

  const EmptyBatchMessage := "Please paste at least one YouTube URL."
  const ImportAuthMessage := "Authentication failed. Please log in again."
  const FetchAuthMessage := "Authentication failed: Missing token."
  const ImportFailedPrefix := "Import Failed: "
  const ImportFailedFallback := "Failed to import videos."
  const LoadFailedFallback := "Failed to load existing videos."
  const LoadErrorOpening := "Error: "
  const ImportingOpening := "Importing "
  const ImportingClosing := " video(s)... This may take a moment."
  const EmbedPrefix := "https://www.youtube.com/embed/"
  const EmbedSuffix := "?autoplay=0"
  const PublicIdLength := 11

  /** The two catalogues, as chosen in the type selector. */
  datatype VideoType = Leaders | Products {
    function Name(): (n: string)
      ensures n == "leaders" || n == "products"
      ensures (n == "leaders") <==> this == Leaders
    {
      match this
      case Leaders => "leaders"
      case Products => "products"
    }
  }

  datatype Video = Video(id: int, title: string, description: string, videoUrl: string, publicId: Option<string>)

  // ----- The URL list -----

  /** A line the import skips: nothing left after `trim()`. */
  predicate IsBlank(line: string) {
    Trim(line) == ""
  }

  /** `lines.filter(url => url.trim() !== '')`. */
  function KeepNonBlank(lines: seq<string>): (r: seq<string>)
    ensures |r| <= |lines|
    ensures forall i :: 0 <= i < |r| ==> !IsBlank(r[i])
  {
    if lines == [] then []
    else if IsBlank(lines[0]) then KeepNonBlank(lines[1..])
    else [lines[0]] + KeepNonBlank(lines[1..])
  }

  /** The filter keeps the non-blank lines untrimmed, in their original order,
      each as often as it occurs, and nothing else. */
  lemma {:induction false} KeepNonBlankSpec(lines: seq<string>)
    ensures IsSubsequence(KeepNonBlank(lines), lines)
    ensures forall x :: !IsBlank(x) ==> multiset(KeepNonBlank(lines))[x] == multiset(lines)[x]
    ensures forall x :: x in KeepNonBlank(lines) ==> x in lines
  {
    if lines != [] {
      var rest := KeepNonBlank(lines[1..]);
      KeepNonBlankSpec(lines[1..]);
      assert lines == [lines[0]] + lines[1..];
      if !IsBlank(lines[0]) {
        assert KeepNonBlank(lines) == [lines[0]] + rest;
        assert ([lines[0]] + rest)[1..] == rest;
      }
    }
  }

  /** `urls.split('\n').filter(url => url.trim() !== '')`: never more entries
      than the text has lines, and no entry is blank. */
  function UrlList(text: string): (r: seq<string>)
    ensures |r| <= |Split(text, '\n')|
    ensures forall i :: 0 <= i < |r| ==> !IsBlank(r[i])
  {
    KeepNonBlank(Split(text, '\n'))
  }

  /** Every entry of the list is one whole line of the text, and every non-blank
      line is an entry: the lines of the text are the `Split` pieces, and there
      is one more of them than there are line breaks. */
  lemma UrlListSpec(text: string)
    ensures |Split(text, '\n')| == multiset(text)['\n'] + 1
    ensures Join(Split(text, '\n'), '\n') == text
    ensures forall x :: x in UrlList(text) ==> x in Split(text, '\n') && '\n' !in x
    ensures forall x :: !IsBlank(x) ==> multiset(UrlList(text))[x] == multiset(Split(text, '\n'))[x]
    ensures IsSubsequence(UrlList(text), Split(text, '\n'))
  {
    SplitCount(text, '\n');
    JoinSplit(text, '\n');
    KeepNonBlankSpec(Split(text, '\n'));
  }

  /** The list is empty exactly when the pasted text is whitespace only. */
  lemma UrlListEmptyIff(text: string)
    ensures UrlList(text) == [] <==> AllWhitespace(text)
  {
    var lines := Split(text, '\n');
    JoinSplit(text, '\n');
    AllWhitespaceJoin(lines, '\n');
    KeepNonBlankSpec(lines);
    forall i | 0 <= i < |lines| ensures IsBlank(lines[i]) <==> AllWhitespace(lines[i]) {
      TrimEmptyIff(lines[i]);
    }
  }

  // ----- The import request and its reply -----

  /** The JSON body of the batch import: exactly the list and the type. */
  datatype ImportBody = ImportBody(urls: seq<string>, videoType: string)

  /** The import request's outcome: a response with its `ok` flag and the
      `success`/`message` fields of its JSON body, or an error thrown before
      that (rejected fetch, body that is not JSON) with its message. */
  datatype ImportReply =
    | ImportResponse(ok: bool, success: bool, message: Option<string>)
    | ImportThrew(errorMessage: string)

  predicate ImportSucceeded(reply: ImportReply) {
    reply.ImportResponse? && reply.ok && reply.success
  }

  /** The message of the error the failed import is caught with. */
  function FailureReason(reply: ImportReply): (r: string)
    ensures reply.ImportResponse? ==> r != ""
    ensures reply.ImportResponse? && Truthy(reply.message) ==> r == reply.message.value
    ensures reply.ImportResponse? && !Truthy(reply.message) ==> r == ImportFailedFallback
    ensures reply.ImportThrew? ==> r == reply.errorMessage
  {
    match reply
    case ImportResponse(_, _, message) => Or(message, ImportFailedFallback)
    case ImportThrew(errorMessage) => errorMessage
  }

  /** The progress message: the fixed opening and closing around the count,
      written in decimal so that it reads back as the count. */
  function ImportingMessage(count: nat): (r: string)
    ensures |r| > |ImportingOpening| + |ImportingClosing|
    ensures r[..|ImportingOpening|] == ImportingOpening
    ensures r[|r| - |ImportingClosing|..] == ImportingClosing
    ensures var digits := r[|ImportingOpening|..|r| - |ImportingClosing|];
              (forall i :: 0 <= i < |digits| ==> '0' <= digits[i] <= '9')
              && DecimalValue(digits) == count
              && (digits[0] == '0' ==> digits == "0")
  {
    var digits := NatToString(count);
    var r := ImportingOpening + digits + ImportingClosing;
    assert r[|ImportingOpening|..|r| - |ImportingClosing|] == digits;
    r
  }

  // ----- The list requests and their replies -----

  /** One list response: the `success` and `data` fields of its JSON body. */
  datatype ListResponse = ListResponse(success: bool, data: Option<seq<Video>>)

  /** Both list requests answered and parsed, or an error thrown by either. */
  datatype FetchOutcome =
    | Fetched(leaders: ListResponse, products: ListResponse)
    | FetchThrew(errorMessage: string)

  /** A list after the refresh: the backend's list when it reports success
      (`data || []`), otherwise the list as it was. */
  function Refreshed(current: seq<Video>, outcome: FetchOutcome, kind: VideoType): (r: seq<Video>)
    ensures outcome.FetchThrew? ==> r == current
  {
    match outcome
    case FetchThrew(_) => current
    case Fetched(leaders, products) =>
      var response := if kind == Leaders then leaders else products;
      if response.success then response.data.GetOr([]) else current
  }

  /** A successful response replaces its list with exactly the backend's list,
      and each list depends on its own response only. */
  lemma RefreshShowsBackendList(current: seq<Video>, leaders: ListResponse, products: ListResponse, other: ListResponse)
    ensures leaders.success ==> Refreshed(current, Fetched(leaders, products), Leaders) == leaders.data.GetOr([])
    ensures products.success ==> Refreshed(current, Fetched(leaders, products), Products) == products.data.GetOr([])
    ensures !leaders.success ==> Refreshed(current, Fetched(leaders, products), Leaders) == current
    ensures !products.success ==> Refreshed(current, Fetched(leaders, products), Products) == current
    ensures Refreshed(current, Fetched(leaders, products), Leaders) == Refreshed(current, Fetched(leaders, other), Leaders)
    ensures Refreshed(current, Fetched(leaders, products), Products) == Refreshed(current, Fetched(other, products), Products)
  {
  }

  /** The message shown when loading the lists throws: "Error: " followed by
      the error's message, or by the fallback when that message is empty. */
  function LoadErrorMessage(errorMessage: string): (r: string)
    ensures |r| > |LoadErrorOpening|
    ensures r[..|LoadErrorOpening|] == LoadErrorOpening
    ensures errorMessage != "" ==> r[|LoadErrorOpening|..] == errorMessage
    ensures errorMessage == "" ==> r[|LoadErrorOpening|..] == LoadFailedFallback
  {
    LoadErrorOpening + Or(Some(errorMessage), LoadFailedFallback)
  }

  // ----- The embed link -----

  /** `getEmbedUrl`: the embed link for an 11-character public id, else the stored URL. */
  function EmbedUrl(url: string, publicId: Option<string>): (r: string)
    ensures publicId.Some? && |publicId.value| == PublicIdLength ==> EmbeddedId(r) == Some(publicId.value)
    ensures !(publicId.Some? && |publicId.value| == PublicIdLength) ==> r == url
  {
    if publicId.Some? && |publicId.value| == PublicIdLength then
      var r := EmbedPrefix + publicId.value + EmbedSuffix;
      assert r[..|EmbedPrefix|] == EmbedPrefix;
      assert r[|EmbedPrefix|..|EmbedPrefix| + PublicIdLength] == publicId.value;
      assert r[|EmbedPrefix| + PublicIdLength..] == EmbedSuffix;
      r
    else url
  }

  /** The public id an embed link carries, if it is one. */
  function EmbeddedId(link: string): Option<string> {
    if |link| == |EmbedPrefix| + PublicIdLength + |EmbedSuffix|
       && link[..|EmbedPrefix|] == EmbedPrefix
       && link[|EmbedPrefix| + PublicIdLength..] == EmbedSuffix
    then Some(link[|EmbedPrefix|..|EmbedPrefix| + PublicIdLength])
    else None
  }

  // ----- The screen -----

  class VideoManagementPage {
    var urls: string
    var videoType: VideoType
    var isImporting: bool
    var importMessage: string
    var importMessageType: string
    var leaderVideos: seq<Video>
    var productVideos: seq<Video>
    var loading: bool
    /** `localStorage.getItem('token')` as read when the screen renders. */
    const token: Option<string>

    constructor (storage: Store)
      ensures token == Lookup(storage, TokenKey)
      ensures urls == "" && videoType == Leaders && !isImporting
      ensures importMessage == "" && importMessageType == ""
      ensures leaderVideos == [] && productVideos == [] && loading
    {
      token := Lookup(storage, TokenKey);
      urls, videoType, isImporting := "", Leaders, false;
      importMessage, importMessageType := "", "";
      leaderVideos, productVideos, loading := [], [], true;
    }

    /** The import button is disabled while an import is in flight. */
    predicate SubmitDisabled()
      reads this
    {
      isImporting
    }

    method SetUrls(text: string)
      modifies this`urls
      ensures urls == text
    {
      urls := text;
    }

    method SetVideoType(kind: VideoType)
      modifies this`videoType
      ensures videoType == kind
    {
      videoType := kind;
    }

    /** `fetchVideos` up to the `await`: without a token it reports the error
        and stops; otherwise both list requests go out and `loading` stays on. */
    method BeginFetchVideos() returns (requested: bool)
      modifies this`loading, this`importMessage, this`importMessageType
      ensures requested == Truthy(token)
      ensures requested ==> loading && importMessage == old(importMessage) && importMessageType == old(importMessageType)
      ensures !requested ==> !loading && importMessage == FetchAuthMessage && importMessageType == "error"
    {
      loading := true;
      if !Truthy(token) {
        importMessage := FetchAuthMessage;
        importMessageType := "error";
        loading := false;
        requested := false;
        return;
      }
      requested := true;
    }

    /** `fetchVideos` after the `await`: each list takes the backend's list if
        that response reports success; a thrown error leaves both lists and
        reports the error; `loading` ends off. */
    method CompleteFetchVideos(outcome: FetchOutcome)
      modifies this`leaderVideos, this`productVideos, this`importMessage, this`importMessageType, this`loading
      ensures !loading
      ensures leaderVideos == Refreshed(old(leaderVideos), outcome, Leaders)
      ensures productVideos == Refreshed(old(productVideos), outcome, Products)
      ensures outcome.Fetched? ==> importMessage == old(importMessage) && importMessageType == old(importMessageType)
      ensures outcome.FetchThrew? ==> importMessage == LoadErrorMessage(outcome.errorMessage) && importMessageType == "error"
    {
      match outcome {
        case Fetched(leaders, products) =>
          if leaders.success {
            leaderVideos := leaders.data.GetOr([]);
          }
          if products.success {
            productVideos := products.data.GetOr([]);
          }
        case FetchThrew(errorMessage) =>
          importMessage := LoadErrorMessage(errorMessage);
          importMessageType := "error";
      }
      loading := false;
    }

    /** `handleBatchScrapeImport` up to the `await`. An empty list is refused
        first, then a missing token; otherwise the request carrying the list
        and the type is issued and `isImporting` turns on. */
    method HandleBatchScrapeImport() returns (request: Option<ImportBody>)
      modifies this`isImporting, this`importMessage, this`importMessageType
      ensures UrlList(urls) == [] ==>
                request.None? && importMessage == EmptyBatchMessage && importMessageType == "error"
                && isImporting == old(isImporting)
      ensures UrlList(urls) != [] && !Truthy(token) ==>
                request.None? && importMessage == ImportAuthMessage && importMessageType == "error"
                && isImporting == old(isImporting)
      ensures UrlList(urls) != [] && Truthy(token) ==>
                request == Some(ImportBody(UrlList(urls), videoType.Name())) && isImporting
                && importMessage == ImportingMessage(|UrlList(urls)|) && importMessageType == "info"
      ensures request.Some? ==> SubmitDisabled()
    {
      var urlList := UrlList(urls);
      if |urlList| == 0 {
        importMessage := EmptyBatchMessage;
        importMessageType := "error";
        return None;
      }
      if !Truthy(token) {
        importMessage := ImportAuthMessage;
        importMessageType := "error";
        return None;
      }
      isImporting := true;
      importMessage := ImportingMessage(|urlList|);
      importMessageType := "info";
      request := Some(ImportBody(urlList, videoType.Name()));
    }

    /** `handleBatchScrapeImport` after the `await`. On success the backend's
        message is shown, the lists are refetched and the text area is cleared;
        on failure the error is shown and the text area is kept. Either way
        `isImporting` ends off. */
    method CompleteImport(reply: ImportReply) returns (refetchRequested: bool)
      modifies this`isImporting, this`importMessage, this`importMessageType, this`urls, this`loading
      ensures !isImporting && !SubmitDisabled()
      ensures ImportSucceeded(reply) ==> urls == "" && refetchRequested == Truthy(token)
      ensures ImportSucceeded(reply) && Truthy(token) ==>
                importMessage == reply.message.GetOr("") && importMessageType == "success" && loading
      ensures ImportSucceeded(reply) && !Truthy(token) ==>
                importMessage == FetchAuthMessage && importMessageType == "error" && !loading
      ensures !ImportSucceeded(reply) ==>
                urls == old(urls) && !refetchRequested && loading == old(loading)
                && importMessage == ImportFailedPrefix + FailureReason(reply) && importMessageType == "error"
    {
      if ImportSucceeded(reply) {
        importMessage := reply.message.GetOr("");
        importMessageType := "success";
        refetchRequested := BeginFetchVideos();
        urls := "";
      } else {
        importMessage := ImportFailedPrefix + FailureReason(reply);
        importMessageType := "error";
        refetchRequested := false;
      }
      isImporting := false;
    }
  }

  // ----- The edit dialog -----

  /** The fields the edit dialog sends: title and description only. */
  datatype EditPayload = EditPayload(title: string, description: string)

  /** The `onSave(video.id, video.type, payload)` call. */
  datatype SaveCall = SaveCall(videoId: int, videoType: VideoType, payload: EditPayload)

  class EditModal {
    const video: Video
    /** The list the dialog was opened from. */
    const videoType: VideoType
    var title: string
    var description: string

    constructor (video: Video, videoType: VideoType)
      ensures this.video == video && this.videoType == videoType
      ensures title == video.title && description == video.description
    {
      this.video := video;
      this.videoType := videoType;
      title := video.title;
      description := video.description;
    }

    method SetTitle(text: string)
      modifies this`title
      ensures title == text
    {
      title := text;
    }

    method SetDescription(text: string)
      modifies this`description
      ensures description == text
    {
      description := text;
    }

    /** `handleSave`: the edited title and description, for the video's id and list. */
    method HandleSave() returns (call: SaveCall)
      ensures call == SaveCall(video.id, videoType, EditPayload(title, description))
    {
      call := SaveCall(video.id, videoType, EditPayload(title, description));
    }
  }

  /** Opening the dialog and saving straight away sends the video's own title
      and description back. */
  method SaveUnedited(video: Video, videoType: VideoType) returns (call: SaveCall)
    ensures call == SaveCall(video.id, videoType, EditPayload(video.title, video.description))
  {
    var modal := new EditModal(video, videoType);
    call := modal.HandleSave();
  }
}
