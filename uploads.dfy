/** The upload rules of config/MulterConfig.js: the `fileFilter` verdict
    on a file's mimetype and name, and the part of `cleanupOldAvatar` that
    turns the stored avatar address into a path under `uploads/`. The file
    system calls that follow are not modelled. */
module Uploads {
  import opened Wrappers
  import opened Text
  import opened Users

  const ZipMimeTypes: seq<string> := ["application/zip", "application/x-zip-compressed"]
  const AllowedExtensions: seq<string> := [".jpg", ".jpeg", ".png", ".gif", ".webp", ".zip"]
  const UploadsDir: string := "uploads/"

  /** The last index holding `c`. */
  function LastIndex(s: string, c: char): (r: Option<nat>)
    ensures r.Some? ==> r.value < |s| && s[r.value] == c && forall j :: r.value < j < |s| ==> s[j] != c
    ensures r.None? ==> forall j :: 0 <= j < |s| ==> s[j] != c
  {
    if s == [] then None
    else if s[|s| - 1] == c then Some(|s| - 1)
    else LastIndex(s[..|s| - 1], c)
  }

  /** The last path component. */
  function BaseName(name: string): (r: string)
    ensures '/' !in r
  {
    match LastIndex(name, '/')
    case None => name
    case Some(i) => name[i + 1..]
  }

  /** `path.extname`: from the last dot of the last component to its end;
      empty when there is no dot or the only dot starts the component. */
  function ExtName(name: string): (r: string)
    ensures r == [] || r[0] == '.'
  {
    var base := BaseName(name);
    match LastIndex(base, '.')
    case None => []
    case Some(i) => if i == 0 then [] else base[i..]
  }

  datatype Verdict = Accepted | NotImageOrZip | BadExtension

  /** `fileFilter`: the kind check first, then the extension check on the
      lower-cased extension. */
  function FileFilter(mimetype: string, originalName: string): (v: Verdict)
    ensures v == Accepted <==>
      (StartsWith(mimetype, "image/") || mimetype in ZipMimeTypes)
      && Lower(ExtName(originalName)) in AllowedExtensions
  {
    var isImage := StartsWith(mimetype, "image/");
    var ext := Lower(ExtName(originalName));
    var isZip := mimetype in ZipMimeTypes;
    if !isImage && !isZip then NotImageOrZip
    else if ext !in AllowedExtensions then BadExtension
    else Accepted
  }

  /** A file of another kind is refused whatever its name. */
  lemma KindCheckedFirst(mimetype: string, originalName: string)
    requires !StartsWith(mimetype, "image/") && mimetype !in ZipMimeTypes
    ensures FileFilter(mimetype, originalName) == NotImageOrZip
  {
  }

  /** The extension is compared without regard to case: `PHOTO.JPG` is as
      good as `photo.jpg`. */
  lemma ExtensionCaseInsensitive(mimetype: string, a: string, b: string)
    requires Lower(ExtName(a)) == Lower(ExtName(b))
    ensures FileFilter(mimetype, a) == FileFilter(mimetype, b)
  {
  }

  lemma UpperCaseJpegAccepted()
    ensures FileFilter("image/jpeg", "PHOTO.JPG") == Accepted
  {
    var name := "PHOTO.JPG";
    assert LastIndex(name, '/') == None;
    assert BaseName(name) == name;
    assert name[5] == '.' && forall j :: 5 < j < |name| ==> name[j] != '.';
    assert ExtName(name) == ".JPG";
    assert Lower(".JPG") == ".jpg";
    assert StartsWith("image/jpeg", "image/");
  }

  /** An image mimetype does not admit any name: an image sent as
      `picture.svg` is refused for its extension. */
  lemma SvgRefused()
    ensures FileFilter("image/svg+xml", "picture.svg") == BadExtension
  {
    var name := "picture.svg";
    assert LastIndex(name, '/') == None;
    assert BaseName(name) == name;
    assert name[7] == '.' && forall j :: 7 < j < |name| ==> name[j] != '.';
    assert ExtName(name) == ".svg";
    assert Lower(".svg") == ".svg";
    assert StartsWith("image/svg+xml", "image/");
  }

  /** A name without a dot has no extension and is refused. */
  lemma NoExtensionRefused(mimetype: string, name: string)
    requires StartsWith(mimetype, "image/")
    requires '.' !in name
    ensures FileFilter(mimetype, name) == BadExtension
  {
    assert '.' !in BaseName(name);
  }

  // ----- cleanupOldAvatar ----------------------------------------------------------

  /** `s.replace(/^\/+/, '')`. */
  function DropSlashes(s: string): (r: string)
    ensures r == [] || r[0] != '/'
    ensures |r| <= |s| && r == s[|s| - |r|..]
  {
    if s != [] && s[0] == '/' then DropSlashes(s[1..]) else s
  }

  /** `SERVER_URL && s.startsWith(SERVER_URL)`. */
  predicate HasServerPrefix(s: string, serverUrl: Option<string>) {
    serverUrl.Some? && serverUrl.value != "" && StartsWith(s, serverUrl.value)
  }

  /** The address with a leading server address removed. */
  function WithoutServer(s: string, serverUrl: Option<string>): (r: string)
    ensures HasServerPrefix(s, serverUrl) ==> s == serverUrl.value + r
    ensures !HasServerPrefix(s, serverUrl) ==> r == s
  {
    if HasServerPrefix(s, serverUrl) then s[|serverUrl.value|..] else s
  }

  /** The path from its first `uploads/` on, kept whole when it starts
      there; `None` when `uploads/` does not occur. */
  function FromUploads(s: string): (r: Option<string>)
    ensures r.Some? ==> StartsWith(r.value, UploadsDir)
    ensures StartsWith(s, UploadsDir) ==> r == Some(s)
  {
    if StartsWith(s, UploadsDir) then Some(s)
    else match IndexOf(s, UploadsDir)
      case Some(i) =>
        assert s[i..][..|UploadsDir|] == s[i..i + |UploadsDir|];
        Some(s[i..])
      case None => None
  }

  /** The path `cleanupOldAvatar` goes on to delete, or `None` when it
      stops early: no uploaded file, no user, no avatar, or an address with
      no `uploads/` in it. */
  function AvatarRelativePath(hasFile: bool, user: Option<UserDoc>, serverUrl: Option<string>)
    : Option<string>
  {
    if !hasFile || user.None? || user.value.avatar.None? || user.value.avatar.value == "" then None
    else FromUploads(DropSlashes(WithoutServer(Trim(user.value.avatar.value), serverUrl)))
  }

  /** The handler's rewriting of `relativePath`, step by step. */
  method NormaliseAvatarPath(hasFile: bool, user: Option<UserDoc>, serverUrl: Option<string>)
    returns (r: Option<string>)
    ensures r == AvatarRelativePath(hasFile, user, serverUrl)
  {
    if !hasFile || user.None? || user.value.avatar.None? || user.value.avatar.value == "" {
      return None;
    }
    var oldAvatarPath := Trim(user.value.avatar.value);
    var relativePath := StripServer(oldAvatarPath, serverUrl);
    relativePath := StripSlashes(relativePath);
    r := KeepFromUploads(relativePath);
  }

  /** `relativePath.replace(SERVER_URL, '')` when it starts with the
      server address: the first occurrence is the leading one. */
  method StripServer(path: string, serverUrl: Option<string>) returns (r: string)
    ensures r == WithoutServer(path, serverUrl)
  {
    r := path;
    if serverUrl.Some? && serverUrl.value != "" && StartsWith(r, serverUrl.value) {
      var url := serverUrl.value;
      var at := IndexOf(r, url);
      assert OccursAt(r, url, 0);
      r := r[..at.value] + r[at.value + |url|..];
    }
  }

  /** `relativePath.replace(/^\/+/, '')`. */
  method StripSlashes(path: string) returns (r: string)
    ensures r == DropSlashes(path)
  {
    r := path;
    while r != [] && r[0] == '/'
      invariant DropSlashes(r) == DropSlashes(path)
    {
      r := r[1..];
    }
  }

  /** Keep a path starting with `uploads/`, cut one containing it, and
      give up on the rest. */
  method KeepFromUploads(path: string) returns (r: Option<string>)
    ensures r == FromUploads(path)
  {
    var relativePath := path;
    if !StartsWith(relativePath, UploadsDir) {
      var at := IndexOf(relativePath, UploadsDir);
      if at.Some? {
        relativePath := relativePath[at.value..];
      } else {
        return None;
      }
    }
    r := Some(relativePath);
  }

  /** Whenever deletion goes ahead, the path starts with `uploads/`. */
  lemma DeletedPathUnderUploads(hasFile: bool, user: Option<UserDoc>, serverUrl: Option<string>)
    ensures var r := AvatarRelativePath(hasFile, user, serverUrl);
      r.Some? ==> StartsWith(r.value, UploadsDir)
  {
  }

  /** Nothing is deleted without an uploaded file, a user and an avatar. */
  lemma NothingMissing(hasFile: bool, user: Option<UserDoc>, serverUrl: Option<string>)
    requires !hasFile || user.None? || user.value.avatar.None? || user.value.avatar.value == ""
    ensures AvatarRelativePath(hasFile, user, serverUrl) == None
  {
  }

  /** An avatar stored as a path under `uploads/`, without surrounding
      whitespace and not under the server address, is deleted as it is. */
  lemma UploadsPathUnchanged(user: UserDoc, serverUrl: Option<string>)
    requires user.avatar.Some? && StartsWith(user.avatar.value, UploadsDir)
    requires Trim(user.avatar.value) == user.avatar.value
    requires !HasServerPrefix(user.avatar.value, serverUrl)
    ensures AvatarRelativePath(true, Some(user), serverUrl) == user.avatar
  {
    var a := user.avatar.value;
    UploadsKeepsSlashes(a);
    assert WithoutServer(Trim(a), serverUrl) == a;
  }

  lemma UploadsKeepsSlashes(a: string)
    requires StartsWith(a, UploadsDir)
    ensures a != "" && DropSlashes(a) == a
  {
    assert a[0] == UploadsDir[0];
  }

  /** The server address and the slashes after it come off: an address
      `SERVER_URL/uploads/profile/a.webp` gives `uploads/profile/a.webp`. */
  lemma ServerAddressStripped(user: UserDoc, url: string, path: string)
    requires url != [] && !IsSpace(url[0]) && StartsWith(path, UploadsDir) && !IsSpace(path[|path| - 1])
    requires user.avatar == Some(url + "/" + path)
    ensures AvatarRelativePath(true, Some(user), Some(url)) == Some(path)
  {
    var a := url + ("/" + path);
    assert a == user.avatar.value;
    TrimmedEdges(a);
    StrippedToUploads(url, "/" + path, path);
  }

  lemma StrippedToUploads(url: string, tail: string, path: string)
    requires url != [] && tail == "/" + path && StartsWith(path, UploadsDir)
    ensures FromUploads(DropSlashes(WithoutServer(url + tail, Some(url)))) == Some(path)
  {
    ServerPrefixOff(url, tail);
    SlashOff(path);
  }

  lemma ServerPrefixOff(url: string, tail: string)
    requires url != []
    ensures WithoutServer(url + tail, Some(url)) == tail
  {
    assert (url + tail)[..|url|] == url;
  }

  lemma SlashOff(s: string)
    requires StartsWith(s, UploadsDir)
    ensures DropSlashes("/" + s) == s
  {
    assert ("/" + s)[1..] == s;
    UploadsKeepsSlashes(s);
  }
}
