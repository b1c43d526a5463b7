/**
 * The administrator's application list: search and status filter, the set of
 * selected rows, single and bulk deletion, the status update, and the download
 * of an uploaded file through its fallback chain of storage-path sources.
 */
module AdminApplications {
  import opened Wrappers
  import opened Text
  import PercentCoding
  import Status
  import Seqs

  /** One row of the list: the application joined with its form type's name and its owner's profile. */
  datatype Application = Application(
    id: string,
    userId: string,
    formTypeId: string,
    status: string,
    totalPriceCents: int,
    adminNotes: Option<string>,
    formTypeName: Option<string>,
    email: Option<string>,
    fullName: Option<string>)

  /** The owner's profile as looked up for a row: e-mail and full name, when a profile was found. */
  datatype Profile = Profile(email: string, fullName: Option<string>)

  /**
   * `{ ...app, profiles: profile || { email: "", full_name: null } }`: a row
   * whose owner has no profile still gets an e-mail, the empty one.
   */
  function AttachProfile(app: Application, profile: Option<Profile>): (r: Application)
    ensures profile.Some? ==> r.email == Some(profile.value.email) && r.fullName == profile.value.fullName
    ensures profile.None? ==> r.email == Some("") && r.fullName == None
    ensures r.(email := app.email, fullName := app.fullName) == app
  {
    var p := profile.GetOr(Profile("", None));
    app.(email := Some(p.email), fullName := p.fullName)
  }

  // ----------------------------------------------------------------------------
  // Search and status filter

  /** A present field whose lower-cased text contains the lower-cased query. */
  predicate FieldMatches(field: Option<string>, query: string) {
    field.Some? && Contains(Lower(field.value), Lower(query))
  }

  predicate MatchesSearch(app: Application, query: string) {
    FieldMatches(app.email, query) || FieldMatches(app.fullName, query) ||
    FieldMatches(app.formTypeName, query)
  }

  predicate MatchesStatus(app: Application, statusFilter: string) {
    statusFilter == "all" || app.status == statusFilter
  }

  /** The rows shown: those matching both the search text and the status filter, in list order. */
  function FilterApplications(apps: seq<Application>, query: string, statusFilter: string): (r: seq<Application>)
    ensures |r| <= |apps|
    ensures forall a :: a in r <==> a in apps && MatchesSearch(a, query) && MatchesStatus(a, statusFilter)
    ensures statusFilter != "all" ==> forall a :: a in r ==> a.status == statusFilter
  {
    Seqs.Filter(apps, a => MatchesSearch(a, query) && MatchesStatus(a, statusFilter))
  }

  /** The filter keeps the list's order: filtering a concatenation concatenates the filtered parts. */
  lemma FilterPreservesOrder(a: seq<Application>, b: seq<Application>, query: string, statusFilter: string)
    ensures FilterApplications(a + b, query, statusFilter) ==
            FilterApplications(a, query, statusFilter) + FilterApplications(b, query, statusFilter)
  {
    Seqs.FilterAppend(a, b, a => MatchesSearch(a, query) && MatchesStatus(a, statusFilter));
  }

  lemma LowerIdempotent(s: string)
    ensures Lower(Lower(s)) == Lower(s)
  {
  }

  /** The search ignores ASCII case: a query and its lower-cased form select the same rows. */
  lemma SearchIgnoresCase(app: Application, query: string)
    ensures MatchesSearch(app, query) <==> MatchesSearch(app, Lower(query))
  {
    LowerIdempotent(query);
  }

  /**
   * An empty search keeps exactly the rows with at least one searchable field present:
   * a row whose email, name and form-type name are all missing is hidden even then.
   */
  lemma EmptySearch(app: Application)
    ensures MatchesSearch(app, "") <==>
            app.email.Some? || app.fullName.Some? || app.formTypeName.Some?
  {
    assert Lower("") == "";
    if app.email.Some? { assert OccursAt(Lower(app.email.value), "", 0); }
    if app.fullName.Some? { assert OccursAt(Lower(app.fullName.value), "", 0); }
    if app.formTypeName.Some? { assert OccursAt(Lower(app.formTypeName.value), "", 0); }
  }

  /** Since every fetched row carries an e-mail, the empty search shows every fetched row. */
  lemma EmptySearchShowsFetchedRows(app: Application, profile: Option<Profile>)
    ensures MatchesSearch(AttachProfile(app, profile), "")
  {
    EmptySearch(AttachProfile(app, profile));
  }

  // ----------------------------------------------------------------------------
  // Selection

  /** The selection after clicking one row's checkbox. */
  function Toggled(selected: set<string>, id: string): (r: set<string>)
    ensures id in r <==> id !in selected
    ensures forall x :: x != id ==> (x in r <==> x in selected)
  {
    if id in selected then selected - {id} else selected + {id}
  }

  /** Clicking the same checkbox twice restores the selection. */
  lemma ToggleTwice(selected: set<string>, id: string)
    ensures Toggled(Toggled(selected, id), id) == selected
  {
  }

  function Ids(apps: seq<Application>): (r: set<string>)
    ensures forall a :: a in apps ==> a.id in r
    ensures forall x :: x in r ==> exists a :: a in apps && a.id == x
  {
    set a | a in apps :: a.id
  }

  /**
   * The selection after clicking the header checkbox: cleared when it has as many
   * ids as rows are shown, otherwise exactly the shown rows' ids.
   */
  function SelectAll(selected: set<string>, visible: seq<Application>): (r: set<string>)
    ensures |selected| == |visible| ==> r == {}
    ensures |selected| != |visible| ==> (forall x :: x in r <==> exists a :: a in visible && a.id == x)
  {
    if |selected| == |visible| then {} else Ids(visible)
  }

  predicate DistinctIds(apps: seq<Application>) {
    forall i, j :: 0 <= i < j < |apps| ==> apps[i].id != apps[j].id
  }

  lemma {:induction false} IdsCount(apps: seq<Application>)
    requires DistinctIds(apps)
    ensures |Ids(apps)| == |apps|
  {
    if apps != [] {
      var rest := apps[1..];
      IdsCount(rest);
      assert Ids(apps) == {apps[0].id} + Ids(rest);
      assert apps[0].id !in Ids(rest);
    }
  }

  /**
   * With distinct ids, a header click that selects the shown rows makes the header
   * checkbox read as checked, so the next header click clears the selection.
   */
  lemma SelectAllThenClear(selected: set<string>, visible: seq<Application>)
    requires DistinctIds(visible)
    requires |selected| != |visible|
    ensures |SelectAll(selected, visible)| == |visible|
    ensures SelectAll(SelectAll(selected, visible), visible) == {}
  {
    IdsCount(visible);
  }

  // ----------------------------------------------------------------------------
  // Status update

  /** The columns a status change writes. */
  datatype StatusPatch = StatusPatch(status: string, adminNotes: string)

  /** The row after the update: status and notes replaced, every other column kept. */
  function ApplyPatch(app: Application, patch: StatusPatch): (r: Application)
    ensures r.status == patch.status && r.adminNotes == Some(patch.adminNotes)
    ensures r.(status := app.status, adminNotes := app.adminNotes) == app
  {
    app.(status := patch.status, adminNotes := Some(patch.adminNotes))
  }

  /** Repeating the same update leaves the row as the first one did. */
  lemma PatchIdempotent(app: Application, patch: StatusPatch)
    ensures ApplyPatch(ApplyPatch(app, patch), patch) == ApplyPatch(app, patch)
  {
  }

  // ----------------------------------------------------------------------------
  // Downloading an uploaded file

  /** An entry of `uploaded_files`, whose shape is not enforced: it may not be an object at all. */
  datatype FileEntry =
    | NotAnObject
    | FileObject(name: Option<string>, fileName: Option<string>, path: Option<string>,
                 storagePath: Option<string>, url: Option<string>)

  /** The part of a public URL's pathname that precedes the storage path. */
  const Marker: string := "/object/public/application-files/"

  /** The characters `.` does not match in a JavaScript regular expression. */
  predicate IsLineTerminator(c: char) {
    c == '\n' || c == '\r' || c == '\U{2028}' || c == '\U{2029}'
  }

  /** The pattern can match at `i`: the marker, then at least one character `.` accepts. */
  predicate MatchesAt(p: string, i: int) {
    OccursAt(p, Marker, i) && i + |Marker| < |p| && !IsLineTerminator(p[i + |Marker|])
  }

  /** End of the longest run of non-terminators starting at `i` (what the greedy `.+` takes). */
  function RunEnd(p: string, i: nat): (j: nat)
    requires i <= |p|
    ensures i <= j <= |p|
    ensures forall k :: i <= k < j ==> !IsLineTerminator(p[k])
    ensures j < |p| ==> IsLineTerminator(p[j])
    decreases |p| - i
  {
    if i == |p| || IsLineTerminator(p[i]) then i else RunEnd(p, i + 1)
  }

  /** The leftmost position at or after `from` where the pattern matches. */
  function FirstMatch(p: string, from: nat): (r: Option<nat>)
    requires from <= |p|
    ensures r.Some? ==> from <= r.value && MatchesAt(p, r.value)
    ensures r.Some? ==> forall k :: from <= k < r.value ==> !MatchesAt(p, k)
    ensures r.None? ==> forall k :: from <= k ==> !MatchesAt(p, k)
    decreases |p| - from
  {
    if from + |Marker| >= |p| then None
    else if MatchesAt(p, from) then Some(from)
    else FirstMatch(p, from + 1)
  }

  /** The group captured by `/\/object\/public\/application-files\/(.+)/` in a pathname. */
  function CapturedPath(pathname: string): (r: Option<string>)
    ensures r.None? <==> forall k :: 0 <= k ==> !MatchesAt(pathname, k)
    ensures r.Some? ==> r.value != [] && forall i :: 0 <= i < |r.value| ==> !IsLineTerminator(r.value[i])
  {
    match FirstMatch(pathname, 0)
    case None => None
    case Some(i) =>
      var s := i + |Marker|;
      Some(pathname[s..RunEnd(pathname, s)])
  }

  /**
   * For a pathname without line terminators the capture is everything after the
   * first occurrence of the marker, and there is none when that occurrence ends the pathname.
   */
  lemma CaptureAfterFirstMarker(p: string, i: nat)
    requires forall k :: i + |Marker| <= k < |p| ==> !IsLineTerminator(p[k])
    requires OccursAt(p, Marker, i)
    requires forall k :: 0 <= k < i ==> !OccursAt(p, Marker, k)
    ensures CapturedPath(p) == if i + |Marker| < |p| then Some(p[i + |Marker|..]) else None
  {
    var m := FirstMatch(p, 0);
    if i + |Marker| < |p| {
      assert MatchesAt(p, i);
      assert m.Some?;
      assert m.value <= i;
      assert m.value == i;
      var s := i + |Marker|;
      assert RunEnd(p, s) == |p|;
      assert CapturedPath(p) == Some(p[s..|p|]);
      assert p[s..|p|] == p[s..];
    } else {
      forall k | 0 <= k ensures !MatchesAt(p, k) {
        if k > i { assert k + |Marker| > |p|; }
      }
    }
  }

  /** The storage path a public URL's pathname names: the captured group, percent-decoded. */
  function StoragePathFromPathname(pathname: string): (r: Option<string>)
    ensures r.Some? ==> r.value != []
    ensures CapturedPath(pathname).None? ==> r.None?
  {
    match CapturedPath(pathname)
    case None => None
    case Some(c) => PercentCoding.Decode(c)
  }

  /** The name the download is saved under: `name`, else `fileName`, else "download". */
  function DisplayName(f: FileEntry): (r: string)
    requires f.FileObject?
    ensures Truthy(f.name) ==> r == f.name.value
    ensures !Truthy(f.name) && Truthy(f.fileName) ==> r == f.fileName.value
    ensures !Truthy(f.name) && !Truthy(f.fileName) ==> r == "download"
  {
    Or(f.name, Or(f.fileName, Some("download"))).value
  }

  /** Where the bytes come from, once the fallbacks have been tried. */
  datatype DownloadPlan =
    | RejectInvalid
    | FromStorage(path: string, saveAs: string)
    | FetchUrl(url: string, saveAs: string)
    | NoPath

  /**
   * The resolution chain: an explicit path, else the storage path recovered from
   * the URL (`pathnameOf` is the URL parser; `None` stands for an unparseable URL),
   * else a direct fetch of the URL, else nothing.
   */
  function Plan(f: FileEntry, pathnameOf: string -> Option<string>): (r: DownloadPlan)
    ensures r.RejectInvalid? <==> f.NotAnObject?
    ensures f.FileObject? && Truthy(f.path) ==> r == FromStorage(f.path.value, DisplayName(f))
    ensures f.FileObject? && !Truthy(f.path) && Truthy(f.storagePath) ==>
              r == FromStorage(f.storagePath.value, DisplayName(f))
    ensures f.FileObject? && !Truthy(f.path) && !Truthy(f.storagePath) && Truthy(f.url) ==>
              r == match pathnameOf(f.url.value)
                   case Some(pn) =>
                     (match StoragePathFromPathname(pn)
                      case Some(sp) => FromStorage(sp, DisplayName(f))
                      case None => FetchUrl(f.url.value, DisplayName(f)))
                   case None => FetchUrl(f.url.value, DisplayName(f))
    ensures r.NoPath? <==>
              f.FileObject? && !Truthy(f.path) && !Truthy(f.storagePath) && !Truthy(f.url)
  {
    match f
    case NotAnObject => RejectInvalid
    case FileObject(_, _, path, storagePath, url) =>
      var direct := Or(path, storagePath);
      var recovered :=
        if !Truthy(direct) && Truthy(url) then
          match pathnameOf(url.value)
          case None => direct
          case Some(pn) => if StoragePathFromPathname(pn).Some? then StoragePathFromPathname(pn) else direct
        else direct;
      if Truthy(recovered) then FromStorage(recovered.value, DisplayName(f))
      else if Truthy(url) then FetchUrl(url.value, DisplayName(f))
      else NoPath
  }

  /** The URL is consulted only when neither `path` nor `storagePath` is set: the parser is then irrelevant. */
  lemma UrlIgnoredWhenPathKnown(f: FileEntry, p1: string -> Option<string>, p2: string -> Option<string>)
    requires f.FileObject? && (Truthy(f.path) || Truthy(f.storagePath))
    ensures Plan(f, p1) == Plan(f, p2)
    ensures Plan(f, p1).FromStorage?
  {
  }

  /**
   * The pathname of a public object URL yields the percent-decoding of everything
   * after the marker: the decoded path when it decodes, nothing when an escape in it is malformed.
   */
  lemma PublicPathnameDecodes(rest: string)
    requires rest != []
    requires forall k :: 0 <= k < |rest| ==> !IsLineTerminator(rest[k])
    ensures StoragePathFromPathname("/storage/v1" + Marker + rest) == PercentCoding.Decode(rest)
  {
    PublicPathnameCapture(rest);
  }

  /** The group captured in a public object URL's pathname is everything after the marker. */
  lemma PublicPathnameCapture(rest: string)
    requires rest != []
    requires forall k :: 0 <= k < |rest| ==> !IsLineTerminator(rest[k])
    ensures CapturedPath("/storage/v1" + Marker + rest) == Some(rest)
  {
    var pre := "/storage/v1";
    var p := pre + Marker + rest;
    assert Marker[0] == '/' && Marker[1] == 'o';
    forall k | 0 <= k < |pre| ensures !OccursAt(p, Marker, k) {
      assert p[k] == pre[k] && p[k + 1] == (pre + "/")[k + 1];
      assert pre[k] != '/' || (pre + "/")[k + 1] != 'o' by {
        assert k == 0 || k == 1 || k == 2 || k == 3 || k == 4 || k == 5 || k == 6 ||
               k == 7 || k == 8 || k == 9 || k == 10;
      }
      assert p[k..k + |Marker|][0] != Marker[0] || p[k..k + |Marker|][1] != Marker[1];
    }
    assert p[|pre|..|pre| + |Marker|] == Marker;
    assert p[|pre| + |Marker|..] == rest;
    CaptureAfterFirstMarker(p, |pre|);
  }

  /** For a path free of `%` and line breaks, the pathname yields exactly that path. */
  lemma PublicPathnameYieldsStoragePath(rest: string)
    requires rest != [] && '%' !in rest
    requires forall k :: 0 <= k < |rest| ==> !IsLineTerminator(rest[k])
    ensures StoragePathFromPathname("/storage/v1" + Marker + rest) == Some(rest)
  {
    PublicPathnameDecodes(rest);
  }

  /** An escaped `/` in the stored URL comes back as `/`: the path is decoded before the download. */
  lemma EscapedSlashIsDecoded(dir: string, file: string)
    requires dir != [] && '%' !in dir && '%' !in file
    requires forall k :: 0 <= k < |dir| ==> !IsLineTerminator(dir[k])
    requires forall k :: 0 <= k < |file| ==> !IsLineTerminator(file[k])
    ensures StoragePathFromPathname("/storage/v1" + Marker + (dir + "%2F" + file)) == Some(dir + "/" + file)
  {
    var rest := dir + "%2F" + file;
    forall k | 0 <= k < |rest| ensures !IsLineTerminator(rest[k]) {
      if k >= |dir| + 3 { assert rest[k] == file[k - |dir| - 3]; }
    }
    PublicPathnameDecodes(rest);
    PercentCoding.DecodeEscapedSlash(dir, file);
  }

  /**
   * A URL whose path after the marker holds a malformed escape names no storage
   * path, so the download falls back to fetching the URL itself.
   */
  lemma MalformedEscapeFallsBackToUrl(name: string, url: string, rest: string, pathnameOf: string -> Option<string>)
    requires name != [] && url != [] && rest != []
    requires forall k :: 0 <= k < |rest| ==> !IsLineTerminator(rest[k])
    requires PercentCoding.Decode(rest).None?
    requires pathnameOf(url) == Some("/storage/v1" + Marker + rest)
    ensures Plan(FileObject(Some(name), None, None, None, Some(url)), pathnameOf) == FetchUrl(url, name)
  {
    PublicPathnameDecodes(rest);
  }

  /**
   * A file recorded before path tracking, with only a name and a public URL: the
   * URL alone leads to the storage object, which is then downloaded under the name.
   */
  lemma UrlOnlyEntryResolves(name: string, url: string, rest: string, pathnameOf: string -> Option<string>)
    requires name != [] && url != []
    requires rest != [] && '%' !in rest
    requires forall k :: 0 <= k < |rest| ==> !IsLineTerminator(rest[k])
    requires pathnameOf(url) == Some("/storage/v1" + Marker + rest)
    ensures Plan(FileObject(Some(name), None, None, None, Some(url)), pathnameOf) == FromStorage(rest, name)
  {
    PublicPathnameYieldsStoragePath(rest);
  }

  datatype DownloadSource = StorageObject(path: string) | PublicUrl(url: string)
  datatype DownloadFailure = InvalidFileData | FilePathNotFound | CouldNotDownload
  datatype DownloadOutcome = Started(saveAs: string, source: DownloadSource) | Failed(reason: DownloadFailure)

  /**
   * `downloadFile`: tries the sources in order. `storageOk` and `fetchOk` are the
   * results of the storage download and of the direct fetch, whichever is made.
   */
  method DownloadFile(file: FileEntry, pathnameOf: string -> Option<string>, storageOk: bool, fetchOk: bool)
    returns (outcome: DownloadOutcome)
    ensures match Plan(file, pathnameOf)
            case RejectInvalid => outcome == Failed(InvalidFileData)
            case FromStorage(p, n) =>
              outcome == if storageOk then Started(n, StorageObject(p)) else Failed(CouldNotDownload)
            case FetchUrl(u, n) =>
              outcome == if fetchOk then Started(n, PublicUrl(u)) else Failed(FilePathNotFound)
            case NoPath => outcome == Failed(FilePathNotFound)
  {
    if file.NotAnObject? {
      return Failed(InvalidFileData);
    }
    var fileName := DisplayName(file);
    var storagePath := Or(file.path, file.storagePath);
    if !Truthy(storagePath) && Truthy(file.url) {
      var pathname := pathnameOf(file.url.value);
      if pathname.Some? {
        var extracted := StoragePathFromPathname(pathname.value);
        if extracted.Some? {
          storagePath := extracted;
        }
      }
    }
    if !Truthy(storagePath) {
      if Truthy(file.url) && fetchOk {
        return Started(fileName, PublicUrl(file.url.value));
      }
      return Failed(FilePathNotFound);
    }
    if storageOk {
      outcome := Started(fileName, StorageObject(storagePath.value));
    } else {
      outcome := Failed(CouldNotDownload);
    }
  }

  // ----------------------------------------------------------------------------
  // Page state

  class ApplicationsPage {
    var applications: seq<Application>
    var searchQuery: string
    var statusFilter: string
    var loading: bool
    var selectedIds: set<string>
    var selectedApp: Option<Application>
    var detailsOpen: bool
    var adminNotes: string
    var bulkDeleting: bool

    constructor ()
      ensures applications == [] && searchQuery == "" && statusFilter == "all" && loading
      ensures selectedIds == {} && selectedApp == None && !detailsOpen && adminNotes == ""
      ensures !bulkDeleting
    {
      applications, searchQuery, statusFilter, loading := [], "", "all", true;
      selectedIds, selectedApp, detailsOpen, adminNotes := {}, None, false, "";
      bulkDeleting := false;
    }

    /** The rows currently shown. */
    function Visible(): seq<Application>
      reads this
    {
      FilterApplications(applications, searchQuery, statusFilter)
    }

    /** `fetchApplications`: a successful load replaces the rows, a failed one keeps them; loading ends either way. */
    method Load(result: Option<seq<Application>>)
      modifies this`applications, this`loading
      ensures applications == if result.Some? then result.value else old(applications)
      ensures !loading
    {
      if result.Some? {
        applications := result.value;
      }
      loading := false;
    }

    method SetSearchQuery(query: string)
      modifies this`searchQuery
      ensures searchQuery == query
    {
      searchQuery := query;
    }

    method SetStatusFilter(filter: string)
      modifies this`statusFilter
      ensures statusFilter == filter
    {
      statusFilter := filter;
    }

    /** `toggleSelectOne`. */
    method ToggleSelectOne(id: string)
      modifies this`selectedIds
      ensures selectedIds == Toggled(old(selectedIds), id)
    {
      if id in selectedIds {
        selectedIds := selectedIds - {id};
      } else {
        selectedIds := selectedIds + {id};
      }
    }

    /** `toggleSelectAll`, against the rows currently shown. */
    method ToggleSelectAll()
      modifies this`selectedIds
      ensures selectedIds == SelectAll(old(selectedIds), old(Visible()))
    {
      var visible := Visible();
      if |selectedIds| == |visible| {
        selectedIds := {};
      } else {
        selectedIds := set a | a in visible :: a.id;
      }
    }

    /** `openDetails`: the notes editor starts from the stored notes, or empty. */
    method OpenDetails(app: Application)
      modifies this`selectedApp, this`adminNotes, this`detailsOpen
      ensures selectedApp == Some(app) && detailsOpen
      ensures adminNotes == app.adminNotes.GetOr("")
    {
      selectedApp := Some(app);
      adminNotes := app.adminNotes.GetOr("");
      detailsOpen := true;
    }

    method SetAdminNotes(text: string)
      modifies this`adminNotes
      ensures adminNotes == text
    {
      adminNotes := text;
    }

    /**
     * A status button of the details dialog, `updateStatus(selectedApp.id, newStatus)`:
     * the update targets the application the dialog shows, and the patch sent is
     * the new status with the notes as typed; only when the update succeeds (`ok`)
     * is the list asked for again (`reload`) and the dialog closed. The buttons
     * exist only while an application is selected.
     */
    method UpdateStatus(newStatus: string, ok: bool) returns (targetId: string, patch: StatusPatch, reload: bool)
      requires selectedApp.Some?
      modifies this`detailsOpen
      ensures targetId == selectedApp.value.id
      ensures patch == StatusPatch(newStatus, adminNotes)
      ensures detailsOpen == (old(detailsOpen) && !ok)
      ensures reload <==> ok
    {
      targetId := selectedApp.value.id;
      patch := StatusPatch(newStatus, adminNotes);
      reload := ok;
      if ok {
        detailsOpen := false;
      }
    }

    /**
     * `deleteApplication`: asks for confirmation unless `showConfirm` is off (the
     * user's answer is `confirmed`); after a successful delete the dialog closes,
     * the id leaves the selection and the list is asked for again (`reload`).
     * Returns whether a delete was sent.
     */
    method DeleteApplication(id: string, showConfirm: bool, confirmed: bool, ok: bool) returns (sent: bool, reload: bool)
      modifies this`detailsOpen, this`selectedIds
      ensures sent <==> !showConfirm || confirmed
      ensures selectedIds == if sent && ok then old(selectedIds) - {id} else old(selectedIds)
      ensures detailsOpen == (old(detailsOpen) && !(sent && ok))
      ensures reload <==> sent && ok
    {
      sent := !showConfirm || confirmed;
      reload := sent && ok;
      if !sent {
        return;
      }
      if ok {
        detailsOpen := false;
        selectedIds := selectedIds - {id};
      }
    }

    /**
     * `bulkDeleteApplications`: nothing happens on an empty selection or a declined
     * confirmation; otherwise the whole selection is deleted in one batch, which is
     * returned; only if that batch succeeds is the selection emptied and the list
     * asked for again (`reload`).
     */
    method BulkDelete(confirmed: bool, ok: bool) returns (batch: Option<set<string>>, reload: bool)
      modifies this`selectedIds, this`bulkDeleting
      ensures batch == if old(selectedIds) != {} && confirmed then Some(old(selectedIds)) else None
      ensures selectedIds == if batch.Some? && ok then {} else old(selectedIds)
      ensures bulkDeleting == (old(bulkDeleting) && batch.None?)
      ensures reload <==> batch.Some? && ok
    {
      if |selectedIds| == 0 || !confirmed {
        return None, false;
      }
      batch := Some(selectedIds);
      reload := ok;
      bulkDeleting := true;
      if ok {
        selectedIds := {};
      }
      bulkDeleting := false;
    }
  }
}
