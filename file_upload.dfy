/**
 * The upload slot used for W-2 images and other attachments: the storage path
 * an upload is written to, and the slot's preview and file-name state.
 */
module FileUpload {
  import opened Wrappers
  import opened Text
  import AdminApplications

  /** `name.split(".").pop()`: the text after the last ".", or the whole name when it has none. */
  function Extension(name: string): (ext: string)
    ensures '.' !in ext
    ensures |ext| <= |name| && name[|name| - |ext|..] == ext
    ensures '.' !in name ==> ext == name
    ensures '.' in name ==> |ext| < |name| && name[|name| - |ext| - 1] == '.'
  {
    if name == [] then ""
    else if name[|name| - 1] == '.' then ""
    else
      var init := name[..|name| - 1];
      assert name == init + [name[|name| - 1]];
      Extension(init) + [name[|name| - 1]]
  }

  /** `${userId}/${fieldName}_${Date.now()}.${ext}`, with `now` the clock reading in milliseconds. */
  function StoragePath(userId: string, fieldName: string, now: nat, ext: string): (r: string)
    ensures IsPrefix(userId + "/", r)
  {
    userId + "/" + fieldName + "_" + Decimal(now) + "." + ext
  }

  lemma {:induction false} ExtensionAfterDot(stem: string, ext: string)
    requires '.' !in ext
    ensures Extension(stem + "." + ext) == ext
    decreases |ext|
  {
    var name := stem + "." + ext;
    if ext != [] {
      var init := ext[..|ext| - 1];
      assert name[..|name| - 1] == stem + "." + init;
      assert name[|name| - 1] == ext[|ext| - 1];
      ExtensionAfterDot(stem, init);
      assert ext == init + [ext[|ext| - 1]];
    }
  }

  /** The stored object keeps the uploaded file's extension. */
  lemma StoragePathKeepsExtension(userId: string, fieldName: string, now: nat, fileName: string)
    ensures Extension(StoragePath(userId, fieldName, now, Extension(fileName))) == Extension(fileName)
  {
    ExtensionAfterDot(userId + "/" + fieldName + "_" + Decimal(now), Extension(fileName));
  }

  lemma {:induction false} DecimalInjective(a: nat, b: nat)
    ensures Decimal(a) == Decimal(b) ==> a == b
  {
    if Decimal(a) == Decimal(b) && 10 <= a && 10 <= b {
      var da, db := Decimal(a), Decimal(b);
      assert da[..|da| - 1] == Decimal(a / 10);
      assert db[..|db| - 1] == Decimal(b / 10);
      DecimalInjective(a / 10, b / 10);
      assert DigitChar(a % 10) == da[|da| - 1] == db[|db| - 1] == DigitChar(b % 10);
    }
  }

  /** Two uploads to the same slot at different clock readings never share a path. */
  lemma DistinctTimesDistinctPaths(userId: string, fieldName: string, t1: nat, t2: nat, ext: string)
    requires t1 != t2
    ensures StoragePath(userId, fieldName, t1, ext) != StoragePath(userId, fieldName, t2, ext)
  {
    var head := userId + "/" + fieldName + "_";
    var d1, d2 := Decimal(t1), Decimal(t2);
    var p1, p2 := StoragePath(userId, fieldName, t1, ext), StoragePath(userId, fieldName, t2, ext);
    assert p1 == head + d1 + "." + ext && p2 == head + d2 + "." + ext;
    DecimalInjective(t1, t2);
    if |d1| < |d2| {
      assert p1[|head| + |d1|] == '.';
      assert p2[|head| + |d1|] == d2[|d1|];
    } else if |d2| < |d1| {
      assert p2[|head| + |d2|] == '.';
      assert p1[|head| + |d2|] == d1[|d2|];
    } else {
      assert p1[|head|..|head| + |d1|] == d1;
      assert p2[|head|..|head| + |d2|] == d2;
    }
  }

  /** A path segment that survives the download page's extraction unchanged. */
  predicate PlainSegment(s: string) {
    '%' !in s && forall k :: 0 <= k < |s| ==> !AdminApplications.IsLineTerminator(s[k])
  }

  /**
   * Upload and download agree: when the public URL's pathname is the storage
   * prefix followed by the path, the download page recovers exactly the path
   * the upload wrote to.
   */
  lemma UploadedPathRecovered(userId: string, fieldName: string, now: nat, ext: string)
    requires PlainSegment(userId) && PlainSegment(fieldName) && PlainSegment(ext)
    ensures var path := StoragePath(userId, fieldName, now, ext);
            AdminApplications.StoragePathFromPathname("/storage/v1" + AdminApplications.Marker + path) == Some(path)
  {
    var path := StoragePath(userId, fieldName, now, ext);
    var d := Decimal(now);
    assert path == userId + "/" + fieldName + "_" + d + "." + ext;
    forall k | 0 <= k < |path| ensures path[k] != '%' && !AdminApplications.IsLineTerminator(path[k]) {
      if k >= |userId| + 1 + |fieldName| + 1 && k < |userId| + 1 + |fieldName| + 1 + |d| {
        assert path[k] == d[k - (|userId| + 1 + |fieldName| + 1)];
      }
    }
    AdminApplications.PublicPathnameYieldsStoragePath(path);
  }

  /** `accept.includes("image")`: whether the slot shows an image thumbnail and offers the camera. */
  predicate IsImageAccept(accept: string) {
    Contains(accept, "image")
  }

  /** The slot's `accept` when the page gives none. */
  const DefaultAccept: string := "*"

  /** The default slot shows a generic file icon; a slot accepting images shows the picture. */
  lemma ImageAcceptExamples()
    ensures !IsImageAccept(DefaultAccept)
    ensures IsImageAccept("image/*")
  {
    assert OccursAt("image/*", "image", 0);
  }

  datatype ExistingFile = ExistingFile(url: string, name: string)

  class UploadSlot {
    const userId: string
    const fieldName: string
    const accept: string
    var uploading: bool
    var preview: Option<string>
    var fileName: string

    /** Starts from the already uploaded file, if any; an empty URL shows no preview. */
    constructor (userId: string, fieldName: string, accept: string, existing: Option<ExistingFile>)
      ensures this.userId == userId && this.fieldName == fieldName && this.accept == accept
      ensures !uploading
      ensures preview == if existing.Some? && existing.value.url != "" then Some(existing.value.url) else None
      ensures fileName == if existing.Some? then existing.value.name else ""
    {
      this.userId, this.fieldName, this.accept := userId, fieldName, accept;
      uploading := false;
      preview := if existing.Some? && existing.value.url != "" then Some(existing.value.url) else None;
      fileName := if existing.Some? then existing.value.name else "";
    }

    /**
     * `uploadFile`: writes the file to its timestamped path. `uploadOk` is the
     * storage write's result and `publicUrl` the URL the storage client gives
     * for the path. Only a successful write changes the preview and the name and
     * reports `(url, name)` to the page.
     */
    method UploadFile(name: string, now: nat, uploadOk: bool, publicUrl: string -> string)
      returns (path: string, reported: Option<(string, string)>)
      modifies this`uploading, this`preview, this`fileName
      ensures path == StoragePath(userId, fieldName, now, Extension(name))
      ensures reported == if uploadOk then Some((publicUrl(path), name)) else None
      ensures preview == if uploadOk then Some(publicUrl(path)) else old(preview)
      ensures fileName == if uploadOk then name else old(fileName)
      ensures !uploading
    {
      uploading := true;
      var ext := Extension(name);
      path := StoragePath(userId, fieldName, now, ext);
      if uploadOk {
        var url := publicUrl(path);
        preview := Some(url);
        fileName := name;
        reported := Some((url, name));
      } else {
        reported := None;
      }
      uploading := false;
    }

    /** `clearFile`: forgets the file and reports an empty URL and name to the page. */
    method ClearFile() returns (reported: (string, string))
      modifies this`preview, this`fileName
      ensures preview == None && fileName == ""
      ensures reported == ("", "")
    {
      preview := None;
      fileName := "";
      reported := ("", "");
    }
  }
}
