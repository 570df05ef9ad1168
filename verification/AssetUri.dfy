/** Asset and preview URIs: printed by the operation service, parsed by the desktop shell. */
module AssetUri {
  import opened Wrappers
  import opened Text

  datatype Parsed = Asset(project: string, assetId: string) | Preview(key: string, path: string)

  /** What `http::Uri` gives of a URI. */
  datatype Uri = Uri(scheme: string, host: string, path: string)

  predicate IsKeyChar(c: char) { 'A' <= c <= 'Z' || 'a' <= c <= 'z' || '0' <= c <= '9' || c == '_' || c == '-' }

  predicate IsValidPreviewKey(key: string) { 1 <= |key| <= 64 && forall c | c in key :: IsKeyChar(c) }

  /** `ProjectId::try_new` and `AssetId::try_new`. */
  predicate IsValidId(s: string) { s != "" && forall c | c in s :: c as int < 128 && c !in {'/', '\\', '\0'} }

  // ---- Trimming ----

  function TrimStart(s: string, cs: iset<char>): string {
    if s != "" && s[0] in cs then TrimStart(s[1..], cs) else s
  }

  function TrimEnd(s: string, cs: iset<char>): string {
    if s != "" && s[|s| - 1] in cs then TrimEnd(s[..|s| - 1], cs) else s
  }

  function Trim(s: string, cs: iset<char>): string { TrimEnd(TrimStart(s, cs), cs) }

  const SLASH: iset<char> := iset{'/'}

  /** The characters with the property `White_Space`, which `str::trim` removes. */
  const WHITESPACE: iset<char> := iset c: char | IsWhitespace(c)

  predicate IsWhitespace(c: char) {
    || c as int in {0x20, 0x85, 0xA0, 0x1680, 0x2028, 0x2029, 0x202F, 0x205F, 0x3000}
    || 0x9 <= c as int <= 0xD
    || 0x2000 <= c as int <= 0x200A
  }

  // ---- Parsing ----

  function ParsePreview(key: string, path: string): Option<Parsed> {
    var key, path := Trim(key, WHITESPACE), TrimStart(path, SLASH);
    if key == "" || path == "" || !IsValidPreviewKey(key) then None else Some(Preview(key, path))
  }

  /** A key, a slash and a path. */
  function ParseKeyed(s: string): Option<Parsed> {
    match Find(s, '/')
    case Some(i) => ParsePreview(s[..i], s[i + 1..])
    case None => None
  }

  function ParseAsset(project: string, assetId: string): Option<Parsed> {
    if project != "" && assetId != "" && IsValidId(project) && IsValidId(assetId)
    then Some(Asset(project, assetId)) else None
  }

  /** `parse_path_segments` */
  function ParsePathSegments(path: string): Option<Parsed> {
    var trimmed := TrimStart(path, SLASH);
    match Find(trimmed, '/')
    case None => None
    case Some(i) =>
      var first, rest := trimmed[..i], trimmed[i + 1..];
      if first == "preview" then ParseKeyed(rest) else ParseAsset(first, Trim(rest, SLASH))
  }

  /** `parse_asset_uri` */
  function ParseAssetUri(uri: Uri): Option<Parsed> {
    if (uri.scheme == "http" || uri.scheme == "https") && uri.host == "reimagine-asset.localhost" then
      ParsePathSegments(uri.path)
    else if uri.scheme != "reimagine-asset" then None
    else if uri.host == "preview" then ParseKeyed(TrimStart(uri.path, SLASH))
    else if uri.host != "" && uri.host != "localhost" then
      ParseAsset(uri.host, Trim(uri.path, SLASH))
    else ParsePathSegments(uri.path)
  }

  // ---- Printing ----

  /** `/first/rest` */
  function SegmentPath(first: string, rest: string): string { "/" + (first + ['/'] + rest) }

  /** The URI that `preview` puts in place of an asset path:
      `reimagine-asset://preview/{key}/{path}`. */
  function PrintPreview(key: string, path: string): string {
    "reimagine-asset" + [':'] + ("//" + ("preview" + SegmentPath(key, path)))
  }

  /** Splitting a URI whose authority is a bare host: `http::Uri` keeps query and fragment
      out of the path. */
  function SplitUri(s: string): Option<Uri> {
    match Find(s, ':')
    case None => None
    case Some(i) => if "//" <= s[i + 1..] then Some(SplitHost(s[..i], s[i + 1..][2..])) else None
  }

  function SplitHost(scheme: string, rest: string): Uri {
    var host := Until(rest, {'/', '?', '#'});
    Uri(scheme, host, Until(rest[|host|..], {'?', '#'}))
  }

  function Parse(s: string): Option<Parsed> {
    match SplitUri(s) case Some(uri) => ParseAssetUri(uri) case None => None
  }

  // ---- Round trip ----

  lemma SplitUriOf(scheme: string, rest: string)
    requires ':' !in scheme
    ensures SplitUri(scheme + [':'] + ("//" + rest)) == Some(SplitHost(scheme, rest))
  {
    var tail := "//" + rest;
    var s := scheme + [':'] + tail;
    FindAt(scheme, ':', tail);
    assert s[..|scheme|] == scheme && s[|scheme| + 1..] == tail;
    assert tail[2..] == rest;
  }

  lemma SplitHostOf(scheme: string, host: string, path: string)
    requires Free(host, {'/', '?', '#'}) && path != "" && path[0] == '/'
    ensures SplitHost(scheme, host + path) == Uri(scheme, host, Until(path, {'?', '#'}))
  {
    UntilOf(host, {'/', '?', '#'}, path);
    assert (host + path)[|host|..] == path;
  }

  lemma SplitKeyed(scheme: string, host: string, key: string, path: string)
    requires ':' !in scheme && Free(host, {'/', '?', '#'}) && IsValidPreviewKey(key)
    ensures SplitUri(scheme + [':'] + ("//" + (host + SegmentPath(key, path))))
         == Some(Uri(scheme, host, SegmentPath(key, Until(path, {'?', '#'}))))
  {
    var tail := SegmentPath(key, path);
    SplitUriOf(scheme, host + tail);
    SplitHostOf(scheme, host, tail);
    KeyIsKept(key, path);
  }

  lemma SplitPrinted(key: string, path: string)
    requires IsValidPreviewKey(key)
    ensures SplitUri(PrintPreview(key, path))
         == Some(Uri("reimagine-asset", "preview", SegmentPath(key, Until(path, {'?', '#'}))))
  {
    SplitKeyed("reimagine-asset", "preview", key, path);
  }

  lemma SegmentLead(first: string, rest: string)
    ensures SegmentPath(first, rest) == ("/" + (first + ['/'])) + rest
  { }

  lemma KeyIsKept(key: string, path: string)
    requires IsValidPreviewKey(key)
    ensures Until(SegmentPath(key, path), {'?', '#'}) == SegmentPath(key, Until(path, {'?', '#'}))
  {
    var lead := "/" + (key + ['/']);
    assert forall c | c in lead :: c == '/' || c in key;
    UntilPast(lead, {'?', '#'}, path);
    SegmentLead(key, path);
    SegmentLead(key, Until(path, {'?', '#'}));
  }

  lemma {:induction false} UntilPast(a: string, stops: set<char>, b: string)
    requires Free(a, stops)
    ensures Until(a + b, stops) == a + Until(b, stops)
  {
    if a == "" {
      assert a + b == b;
    } else {
      assert a[0] in a && (a + b)[1..] == a[1..] + b;
      UntilPast(a[1..], stops, b);
    }
  }

  lemma TrimmedAlready(s: string, cs: iset<char>)
    requires forall c | c in s :: c !in cs
    ensures Trim(s, cs) == s && TrimStart(s, cs) == s
  {
    assert s != "" ==> s[0] in s && s[|s| - 1] in s;
  }

  lemma ParseKeyedOf(key: string, path: string)
    requires IsValidPreviewKey(key)
    ensures ParseKeyed(key + ['/'] + path)
         == var kept := TrimStart(path, SLASH); if kept == "" then None else Some(Preview(key, kept))
  {
    var s := key + ['/'] + path;
    FindAt(key, '/', path);
    TrimmedAlready(key, WHITESPACE);
    assert s[..|key|] == key && s[|key| + 1..] == path;
  }

  lemma PathIsTrimmed(key: string, path: string)
    requires key != "" && key[0] != '/'
    ensures TrimStart(SegmentPath(key, path), SLASH) == key + ['/'] + path
  {
    var s := key + ['/'] + path;
    assert ("/" + s)[1..] == s && s[0] == key[0];
  }

  /** A preview URI parses to its key and to its path up to the first `?` or `#`, without
      leading slashes. */
  lemma ParsePrinted(key: string, path: string)
    requires IsValidPreviewKey(key)
    ensures
      var kept := TrimStart(Until(path, {'?', '#'}), SLASH);
      Parse(PrintPreview(key, path)) == if kept == "" then None else Some(Preview(key, kept))
  {
    SplitPrinted(key, path);
    assert key[0] in key;
    PathIsTrimmed(key, Until(path, {'?', '#'}));
    ParseKeyedOf(key, Until(path, {'?', '#'}));
  }

  lemma {:induction false} TrimStartShrinks(s: string, cs: iset<char>)
    ensures |TrimStart(s, cs)| <= |s| && (TrimStart(s, cs) == s <==> s == "" || s[0] !in cs)
  {
    if s != "" && s[0] in cs { TrimStartShrinks(s[1..], cs); }
  }

  lemma {:induction false} UntilShrinks(s: string, stops: set<char>)
    ensures Until(s, stops) == s <==> Free(s, stops)
    ensures Until(s, stops) != s ==> |Until(s, stops)| < |s|
  {
    if s != "" {
      UntilShrinks(s[1..], stops);
      assert s[0] in s && s == [s[0]] + s[1..];
      if s[0] !in stops { assert Until(s, stops)[1..] == Until(s[1..], stops); }
    }
  }

  /** What `preview` printed comes back exactly for a path that is not empty, does not begin
      with a slash and contains neither `?` nor `#`. */
  lemma RoundTrip(key: string, path: string)
    requires IsValidPreviewKey(key)
    ensures Parse(PrintPreview(key, path)) == Some(Preview(key, path))
            <==> path != "" && path[0] != '/' && Free(path, {'?', '#'})
  {
    ParsePrinted(key, path);
    KeptIsAll(path);
  }

  lemma KeptIsAll(path: string)
    ensures TrimStart(Until(path, {'?', '#'}), SLASH) == path
            <==> Free(path, {'?', '#'}) && (path == "" || path[0] != '/')
  {
    UntilShrinks(path, {'?', '#'});
    TrimStartShrinks(Until(path, {'?', '#'}), SLASH);
    if Until(path, {'?', '#'}) != path {
      assert |Until(path, {'?', '#'})| < |path|;
    }
  }

  // ---- The three forms ----

  function LocalForm(path: string): Uri { Uri("https", "reimagine-asset.localhost", path) }

  /** `reimagine-asset://localhost/…`, `http://reimagine-asset.localhost/…` and its `https`
      variant are the same for every path. */
  lemma LocalhostFormsAgree(path: string)
    ensures ParseAssetUri(Uri("reimagine-asset", "localhost", path)) == ParseAssetUri(LocalForm(path))
    ensures ParseAssetUri(Uri("http", "reimagine-asset.localhost", path)) == ParseAssetUri(LocalForm(path))
  { }

  /** The first path segment of the local form stands for the host of the custom one. */
  lemma LocalPath(host: string, tail: string)
    requires host != "" && '/' !in host
    ensures TrimStart(SegmentPath(host, tail), SLASH) == host + ['/'] + tail
    ensures Find(host + ['/'] + tail, '/') == Some(|host|)
    ensures (host + ['/'] + tail)[..|host|] == host && (host + ['/'] + tail)[|host| + 1..] == tail
  {
    assert host[0] in host;
    PathIsTrimmed(host, tail);
    FindAt(host, '/', tail);
  }

  lemma LocalPreview(tail: string)
    ensures ParsePathSegments(SegmentPath("preview", tail)) == ParseKeyed(tail)
  {
    LocalPath("preview", tail);
  }

  lemma LocalAsset(project: string, tail: string)
    requires project != "" && '/' !in project && project != "preview"
    ensures ParsePathSegments(SegmentPath(project, tail)) == ParseAsset(project, Trim(tail, SLASH))
  {
    LocalPath(project, tail);
  }

  /** On previews the custom form and the local ones agree, save that the local ones do not
      accept slashes before the key. */
  lemma PreviewFormsAgree(tail: string)
    ensures ParseAssetUri(LocalForm(SegmentPath("preview", tail)))
         == if tail != "" && tail[0] == '/' then None else ParseAssetUri(Uri("reimagine-asset", "preview", "/" + tail))
  {
    LocalPreview(tail);
    if tail != "" && tail[0] == '/' {
      NoKey(tail);
    } else {
      assert ("/" + tail)[1..] == tail && TrimStart(tail, SLASH) == tail;
      assert TrimStart("/" + tail, SLASH) == tail;
    }
  }

  lemma NoKey(s: string)
    requires s != "" && s[0] == '/'
    ensures ParseKeyed(s) == None
  {
    assert Find(s, '/') == Some(0) && s[..0] == "";
    assert Trim("", WHITESPACE) == "";
  }

  lemma TrimLeadingSlash(tail: string)
    ensures Trim("/" + tail, SLASH) == Trim(tail, SLASH)
  {
    assert ("/" + tail)[1..] == tail;
  }

  /** Whether the forms agree on what the path names in the project. */
  ghost predicate FormsAgree(project: string, tail: string) {
    ParseAssetUri(Uri("reimagine-asset", project, "/" + tail)) == ParseAssetUri(LocalForm(SegmentPath(project, tail)))
  }

  lemma AssetFormsAgreeFor(project: string, tail: string)
    requires '/' !in project && project != "preview" && project != "localhost"
    ensures FormsAgree(project, tail)
  {
    if project == "" {
      assert "" + ['/'] + tail == "/" + tail;
      assert SegmentPath("", tail)[1..] == "/" + tail;
    } else {
      LocalAsset(project, tail);
      TrimLeadingSlash(tail);
    }
  }

  lemma PreviewSlashDiffers(key: string, path: string)
    requires IsValidPreviewKey(key) && path != "" && path[0] != '/'
    ensures !FormsAgree("preview", SegmentPath(key, path))
  {
    var tail := SegmentPath(key, path);
    PreviewFormsAgree(tail);
    assert key[0] in key;
    PathIsTrimmed(key, path);
    ParseKeyedOf(key, path);
    assert ("/" + tail)[1..] == tail;
  }

  lemma LocalhostDiffers(project: string, assetId: string)
    requires IsValidId(project) && IsValidId(assetId) && project != "preview"
    ensures !FormsAgree("localhost", project + ['/'] + assetId)
  {
    var tail := project + ['/'] + assetId;
    LocalAsset("localhost", tail);
    LocalAsset(project, assetId);
    TrimmedAlready(assetId, SLASH);
    NotTrimmed(tail);
    assert tail[|project|] == '/';
  }

  lemma NotTrimmed(s: string)
    requires s != "" && s[0] != '/' && s[|s| - 1] != '/'
    ensures Trim(s, SLASH) == s
  { }

  /** The forms agree on everything in a project exactly when it is not called `preview` or
      `localhost`, the hosts with a meaning of their own. */
  lemma AssetFormsAgree(project: string)
    requires '/' !in project
    ensures (forall tail :: FormsAgree(project, tail)) <==> project != "preview" && project != "localhost"
  {
    if project == "preview" {
      PreviewSlashDiffers("k", "r");
    } else if project == "localhost" {
      LocalhostDiffers("p", "a");
    } else {
      forall tail ensures FormsAgree(project, tail) { AssetFormsAgreeFor(project, tail); }
    }
  }

  /** An asset of any other project comes back from every form with its ids. */
  lemma AssetRoundTrip(project: string, assetId: string)
    requires IsValidId(project) && IsValidId(assetId) && project != "preview" && project != "localhost"
    ensures ParseAssetUri(Uri("reimagine-asset", project, "/" + assetId)) == Some(Asset(project, assetId))
    ensures ParseAssetUri(LocalForm(SegmentPath(project, assetId))) == Some(Asset(project, assetId))
  {
    AssetFormsAgreeFor(project, assetId);
    TrimLeadingSlash(assetId);
    TrimmedAlready(assetId, SLASH);
  }
}
