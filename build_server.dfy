/** The build server's post-processing, run when the `npm install && npm run
    build` child process closes: rewrite the asset references of
    `dist/index.html` to absolute S3 URLs, then upload every file of `dist`,
    one at a time, under the deployment's key prefix. */
module BuildServer {

  import opened Wrappers
  import opened Text

  /** The bucket the outputs are uploaded to. */
  const Bucket: string := "uploadserviceforskywalker"
  const Region: string := "ap-south-1"

  /** The public URL of the output directory of deployment `projectId`, as
      the rewrite spells it. The literal is split only to keep the
      verifier's work on it small. */
  function S3BaseUrl(projectId: string): (url: string)
    ensures StartsWith(url, "https://")
    ensures |url| >= |projectId| && url[|url| - |projectId|..] == projectId
  {
    "https://uploadserviceforskywalker" + ".s3.ap-south-1.amazonaws.com" + "/__outputs/" + projectId
  }

  /** The object key of the file at relative path `file` of the build output
      of deployment `projectId`. */
  function ObjectKey(projectId: string, file: string): (key: string)
    ensures StartsWith(key, "__outputs/" + projectId + "/")
    ensures key[|"__outputs/" + projectId + "/"|..] == file
  {
    var prefix := "__outputs/" + projectId + "/";
    assert (prefix + file)[..|prefix|] == prefix;
    prefix + file
  }

  /** The key of a file is the deployment's prefix followed by the file. */
  lemma ObjectKeyIsPrefixAndFile(projectId: string, file: string)
    ensures ObjectKey(projectId, file) == "__outputs/" + projectId + "/" + file
  {
    var key := ObjectKey(projectId, file);
    var prefix := "__outputs/" + projectId + "/";
    assert key == key[..|prefix|] + key[|prefix|..];
  }

  /** Keys of different files, or of different deployments whose ids hold no
      `/`, are different. */
  lemma ObjectKeyInjective(id1: string, file1: string, id2: string, file2: string)
    requires '/' !in id1 && '/' !in id2
    requires ObjectKey(id1, file1) == ObjectKey(id2, file2)
    ensures id1 == id2 && file1 == file2
  {
    var n := |"__outputs/"|;
    var k := ObjectKey(id1, file1);
    assert k[n..] == id1 + "/" + file1;
    assert k[n..] == id2 + "/" + file2;
    BeforeSeparator(id1, '/', file1);
    BeforeSeparator(id2, '/', file2);
    assert file1 == k[n + |id1| + 1..];
  }

  /** Without the restriction to ids free of `/` keys do collide: the file
      `b/c.js` of deployment `a` and the file `c.js` of deployment `a/b` are
      uploaded to the same object. */
  lemma SlashedIdsShareKeys()
    ensures ObjectKey("a", "b/c.js") == ObjectKey("a/b", "c.js")
  {
    assert "__outputs/" + "a" + "/" + "b/c.js" == "__outputs/" + "a/b" + "/" + "c.js";
  }

  /** The base URL holds no double quote of its own. */
  lemma BaseUrlHasNoQuote(projectId: string)
    requires '"' !in projectId
    ensures '"' !in S3BaseUrl(projectId)
    ensures S3BaseUrl(projectId)[0] == 'h'
  {
    assert '"' !in "https://uploadserviceforskywalker";
    assert '"' !in ".s3.ap-south-1.amazonaws.com";
    assert '"' !in "/__outputs/";
  }

  /** The three root-relative references a Vite build emits in its entry page. */
  const SrcAssets: string := "src=\"/assets/"
  const HrefAssets: string := "href=\"/assets/"
  const HrefIcon: string := "href=\"/vite.svg\""

  /** What each reference becomes: the same attribute, pointing below the
      public URL of the deployment's output directory. */
  function SrcAssetsUrl(projectId: string): string
  {
    "src=\"" + S3BaseUrl(projectId) + "/assets/"
  }

  function HrefAssetsUrl(projectId: string): string
  {
    "href=\"" + S3BaseUrl(projectId) + "/assets/"
  }

  function HrefIconUrl(projectId: string): string
  {
    "href=\"" + S3BaseUrl(projectId) + "/vite.svg\""
  }

  /** The three global replacements, in the order the build server applies
      them. The replacements are inserted literally, as JavaScript does for a
      replacement string without `$`. */
  function RewriteIndexHtml(html: string, projectId: string): (page: string)
    requires '$' !in projectId
    ensures |page| >= |html|
  {
    var html1 := ReplaceAll(html, SrcAssets, SrcAssetsUrl(projectId));
    var html2 := ReplaceAll(html1, HrefAssets, HrefAssetsUrl(projectId));
    ReplaceAll(html2, HrefIcon, HrefIconUrl(projectId))
  }

  /** The offset of the `"` that every occurrence of pattern `q` holds in
      front of a `/`. */
  function QuoteOffset(q: string): nat
  {
    if q == SrcAssets then 4 else 5
  }

  /** An occurrence of a pattern cannot start within the last characters of
      a replacement, where the `"/` it needs has no room. */
  lemma TailIncompatible(q: string, tail: string)
    requires q == SrcAssets || q == HrefAssets || q == HrefIcon
    requires tail == "/assets/" || tail == "/vite.svg\""
    ensures QuoteOffset(q) + 1 < |q| && q[QuoteOffset(q)] == '"' && q[QuoteOffset(q) + 1] == '/'
    ensures QuoteOffset(q) + 1 <= |tail|
    ensures forall m | |tail| - (QuoteOffset(q) + 1) <= m < |tail| :: !Compatible(tail[m..], q)
  {
    var a := QuoteOffset(q);
    forall m | |tail| - (a + 1) <= m < |tail| ensures !Compatible(tail[m..], q) {
      assert tail[m..][0] == tail[m];
      assert m + 1 < |tail| ==> tail[m..][1] == tail[m + 1];
    }
  }

  /** A text beginning with one of the attribute names followed by `="h`
      is compatible with no proper suffix of a pattern. */
  lemma LeadIncompatible(q: string, r: string)
    requires q == SrcAssets || q == HrefAssets || q == HrefIcon
    requires |r| >= 2 && ((r[0] == 's' && r[1] == 'r') || r[0] == 'h')
    ensures forall i | 1 <= i < |q| :: !Compatible(r, q[i..])
  {
    forall i | 1 <= i < |q| ensures !Compatible(r, q[i..]) {
      assert q[i..][0] == q[i];
      assert i + 1 < |q| ==> q[i..][1] == q[i + 1];
    }
  }

  /** Every replacement is isolated from every pattern, as long as the project
      id has no double quote: each pattern holds `"/`, a replacement holds `"`
      only in front of `https` or at its very end, and begins with an
      attribute name no pattern continues into. */
  lemma ReplacementIsolated(q: string, lead: string, projectId: string, tail: string)
    requires q == SrcAssets || q == HrefAssets || q == HrefIcon
    requires lead == "src=\"" || lead == "href=\""
    requires tail == "/assets/" || tail == "/vite.svg\""
    requires '"' !in projectId
    ensures Isolated(q, lead + S3BaseUrl(projectId) + tail)
  {
    var base := S3BaseUrl(projectId);
    var r := lead + base + tail;
    BaseUrlHasNoQuote(projectId);
    assert base[|base| - 1] != '"';
    NoPairConcat(lead, base, '"', '/');
    NoPairConcat(lead + base, tail, '"', '/');
    assert r[|r| - |tail|..] == tail;
    TailIncompatible(q, tail);
    AnchoredIncompatible(q, r, tail, QuoteOffset(q), '"', '/');
    assert r[0] == lead[0] && r[1] == lead[1];
    LeadIncompatible(q, r);
  }

  /** After the rewrite no root-relative reference of the three kinds is left,
      whatever the page held, provided the project id has no `"`. */
  lemma {:induction false} RewriteLeavesNoRootRelativeReference(html: string, projectId: string)
    requires '$' !in projectId && '"' !in projectId
    ensures NoOccurrence(SrcAssets, RewriteIndexHtml(html, projectId))
    ensures NoOccurrence(HrefAssets, RewriteIndexHtml(html, projectId))
    ensures NoOccurrence(HrefIcon, RewriteIndexHtml(html, projectId))
  {
    var r1, r2, r3 := SrcAssetsUrl(projectId), HrefAssetsUrl(projectId), HrefIconUrl(projectId);
    var html1 := ReplaceAll(html, SrcAssets, r1);
    var html2 := ReplaceAll(html1, HrefAssets, r2);
    ReplacementIsolated(SrcAssets, "src=\"", projectId, "/assets/");
    NoOccurrenceAfterReplace(html, SrcAssets, r1, SrcAssets);
    ReplacementIsolated(SrcAssets, "href=\"", projectId, "/assets/");
    ReplacementIsolated(HrefAssets, "href=\"", projectId, "/assets/");
    NoOccurrenceAfterReplace(html1, HrefAssets, r2, SrcAssets);
    NoOccurrenceAfterReplace(html1, HrefAssets, r2, HrefAssets);
    ReplacementIsolated(SrcAssets, "href=\"", projectId, "/vite.svg\"");
    ReplacementIsolated(HrefAssets, "href=\"", projectId, "/vite.svg\"");
    ReplacementIsolated(HrefIcon, "href=\"", projectId, "/vite.svg\"");
    NoOccurrenceAfterReplace(html2, HrefIcon, r3, SrcAssets);
    NoOccurrenceAfterReplace(html2, HrefIcon, r3, HrefAssets);
    NoOccurrenceAfterReplace(html2, HrefIcon, r3, HrefIcon);
  }

  /** A page without any of the three references is written back unchanged. */
  lemma {:induction false} RewriteKeepsPageWithoutReferences(html: string, projectId: string)
    requires '$' !in projectId
    requires NoOccurrence(SrcAssets, html)
    requires NoOccurrence(HrefAssets, html)
    requires NoOccurrence(HrefIcon, html)
    ensures RewriteIndexHtml(html, projectId) == html
  {
    ReplaceAllAbsent(html, SrcAssets, SrcAssetsUrl(projectId));
    ReplaceAllAbsent(html, HrefAssets, HrefAssetsUrl(projectId));
    ReplaceAllAbsent(html, HrefIcon, HrefIconUrl(projectId));
  }

  /** The replacement the rewrite uses for reference `q`. */
  function ReplacementFor(q: string, projectId: string): string
  {
    if q == SrcAssets then SrcAssetsUrl(projectId)
    else if q == HrefAssets then HrefAssetsUrl(projectId)
    else HrefIconUrl(projectId)
  }

  /** A page whose only root-relative reference is one occurrence of `q`,
      a script, a stylesheet or the icon, gets exactly that reference pointed
      below the deployment's base URL, and nothing else changes. */
  lemma {:induction false} RewriteSingleReference(q: string, before: string, after: string, projectId: string)
    requires q == SrcAssets || q == HrefAssets || q == HrefIcon
    requires '$' !in projectId && '"' !in projectId
    requires forall k | 0 <= k < |before| :: !StartsWith((before + q + after)[k..], q)
    requires NoOccurrence(q, after)
    requires q != SrcAssets ==> NoOccurrence(SrcAssets, before + q + after)
    requires q != HrefAssets ==> NoOccurrence(HrefAssets, before + q + after)
    requires q != HrefIcon ==> NoOccurrence(HrefIcon, before + q + after)
    ensures RewriteIndexHtml(before + q + after, projectId) == before + ReplacementFor(q, projectId) + after
  {
    var html := before + q + after;
    var r := ReplacementFor(q, projectId);
    var lead := if q == SrcAssets then "src=\"" else "href=\"";
    var tail := if q == HrefIcon then "/vite.svg\"" else "/assets/";
    assert r == lead + S3BaseUrl(projectId) + tail;
    var page := before + r + after;
    assert ReplaceAll(html, q, r) == page by {
      ReplaceAllFirst(before, after, q, r);
      ReplaceAllAbsent(after, q, r);
    }
    if q == SrcAssets {
      SkipAfterReplace(html, q, r, lead, tail, HrefAssets, projectId);
      SkipAfterReplace(html, q, r, lead, tail, HrefIcon, projectId);
    } else if q == HrefAssets {
      ReplaceAllAbsent(html, SrcAssets, SrcAssetsUrl(projectId));
      SkipAfterReplace(html, q, r, lead, tail, HrefIcon, projectId);
    } else {
      ReplaceAllAbsent(html, SrcAssets, SrcAssetsUrl(projectId));
      ReplaceAllAbsent(html, HrefAssets, HrefAssetsUrl(projectId));
    }
  }

  /** A later step of the rewrite finds nothing to replace in a page where
      its pattern was absent before an earlier step. */
  lemma SkipAfterReplace(html: string, q: string, r: string, lead: string, tail: string, later: string, projectId: string)
    requires q == SrcAssets || q == HrefAssets || q == HrefIcon
    requires later == HrefAssets || later == HrefIcon
    requires lead == "src=\"" || lead == "href=\""
    requires tail == "/assets/" || tail == "/vite.svg\""
    requires '"' !in projectId
    requires r == lead + S3BaseUrl(projectId) + tail
    requires NoOccurrence(later, html)
    ensures ReplaceAll(ReplaceAll(html, q, r), later, ReplacementFor(later, projectId)) == ReplaceAll(html, q, r)
  {
    ReplacementIsolated(later, lead, projectId, tail);
    NoOccurrenceAfterReplace(html, q, r, later);
    ReplaceAllAbsent(ReplaceAll(html, q, r), later, ReplacementFor(later, projectId));
  }

  /** The entry page, at the root of `dist`. */
  const IndexHtml: string := "index.html"

  /** The contents of `dist` after the rewrite: `index.html` rewritten when it
      exists, every other file and the set of files as they were. */
  function PostProcessed(files: map<string, string>, projectId: string): (result: map<string, string>)
    requires '$' !in projectId
    ensures result.Keys == files.Keys
    ensures forall path | path in files && path != IndexHtml :: result[path] == files[path]
    ensures IndexHtml in files ==> result[IndexHtml] == RewriteIndexHtml(files[IndexHtml], projectId)
  {
    if IndexHtml in files then files[IndexHtml := RewriteIndexHtml(files[IndexHtml], projectId)] else files
  }

  /** One entry of the recursive listing of `dist`: its path relative to
      `dist` and whether it is a directory. */
  datatype Entry = Entry(path: string, isDirectory: bool)

  /** A `PutObjectCommand`: bucket, key, the file's contents and the content
      type `mime.lookup` gave (none when it knows no type for the name). */
  datatype PutObject = PutObject(bucket: string, key: string, body: string, contentType: Option<string>)

  /** Every file of the listing can be read from `dist`. */
  predicate ListedFilesExist(listing: seq<Entry>, files: map<string, string>)
  {
    forall e | e in listing && !e.isDirectory :: e.path in files
  }

  /** The upload of file entry `e`. */
  function UploadOf(projectId: string, e: Entry, files: map<string, string>, mime: string -> Option<string>): (put: PutObject)
    requires e.path in files
    ensures put.bucket == Bucket
    ensures StartsWith(put.key, "__outputs/" + projectId + "/") && put.key[|"__outputs/" + projectId + "/"|..] == e.path
    ensures put.body == files[e.path] && put.contentType == mime(e.path)
  {
    PutObject(Bucket, ObjectKey(projectId, e.path), files[e.path], mime(e.path))
  }

  /** The file entries of a listing, in listing order. */
  function FileEntries(listing: seq<Entry>): (result: seq<Entry>)
    ensures forall e | e in result :: e in listing && !e.isDirectory
  {
    if listing == [] then []
    else if listing[0].isDirectory then FileEntries(listing[1..])
    else [listing[0]] + FileEntries(listing[1..])
  }

  /** The uploads the build server sends for a listing, in the order it sends
      them: one per file entry, none for a directory. */
  function UploadPlan(projectId: string, listing: seq<Entry>, files: map<string, string>,
                      mime: string -> Option<string>): (plan: seq<PutObject>)
    requires ListedFilesExist(listing, files)
    ensures |plan| <= |listing|
    ensures forall i | 0 <= i < |plan| :: plan[i].bucket == Bucket && StartsWith(plan[i].key, "__outputs/" + projectId + "/")
  {
    if listing == [] then []
    else if listing[0].isDirectory then UploadPlan(projectId, listing[1..], files, mime)
    else [UploadOf(projectId, listing[0], files, mime)] + UploadPlan(projectId, listing[1..], files, mime)
  }

  /** Every file entry is uploaded exactly as often as it is listed, and no
      directory entry is uploaded. */
  lemma {:induction false} FileEntriesCount(listing: seq<Entry>, e: Entry)
    ensures multiset(FileEntries(listing))[e] == if e.isDirectory then 0 else multiset(listing)[e]
  {
    if listing != [] {
      FileEntriesCount(listing[1..], e);
      assert listing == [listing[0]] + listing[1..];
    }
  }

  /** The i-th upload is that of the i-th file entry: uploads follow the
      listing, in the bucket `uploadserviceforskywalker`, under
      `__outputs/<projectId>/<path>`, with the file's current contents. */
  lemma {:induction false} UploadPlanFollowsFiles(projectId: string, listing: seq<Entry>,
                                                  files: map<string, string>, mime: string -> Option<string>)
    requires ListedFilesExist(listing, files)
    ensures |UploadPlan(projectId, listing, files, mime)| == |FileEntries(listing)|
    ensures forall i | 0 <= i < |FileEntries(listing)| ::
      var e := FileEntries(listing)[i];
      var put := UploadPlan(projectId, listing, files, mime)[i];
      && put.bucket == Bucket
      && put.key == "__outputs/" + projectId + "/" + e.path
      && put.body == files[e.path]
      && put.contentType == mime(e.path)
  {
    if listing != [] {
      var rest := listing[1..];
      UploadPlanFollowsFiles(projectId, rest, files, mime);
      if !listing[0].isDirectory {
        ObjectKeyIsPrefixAndFile(projectId, listing[0].path);
        assert FileEntries(listing) == [listing[0]] + FileEntries(rest);
      }
    }
  }

  /** Listing one more entry adds its upload, if any, at the end. */
  lemma {:induction false} UploadPlanSnoc(projectId: string, listing: seq<Entry>, e: Entry,
                                          files: map<string, string>, mime: string -> Option<string>)
    requires ListedFilesExist(listing + [e], files)
    ensures ListedFilesExist(listing, files)
    ensures UploadPlan(projectId, listing + [e], files, mime)
         == UploadPlan(projectId, listing, files, mime) + (if e.isDirectory then [] else [UploadOf(projectId, e, files, mime)])
  {
    if listing != [] {
      assert (listing + [e])[1..] == listing[1..] + [e];
      UploadPlanSnoc(projectId, listing[1..], e, files, mime);
    }
  }

  /** The S3 client: the sequence of `PutObjectCommand`s it has completed. */
  class S3Client {
    var sent: seq<PutObject>

    constructor ()
      ensures sent == []
    {
      sent := [];
    }

    /** `await s3Client.send(command)`: returns once the upload is done. */
    method Send(command: PutObject)
      modifies this
      ensures sent == old(sent) + [command]
    {
      sent := sent + [command];
    }
  }

  /** The build output directory `output/dist`: file contents by path
      relative to it. */
  class OutputDir {
    var files: map<string, string>

    constructor (files: map<string, string>)
      ensures this.files == files
    {
      this.files := files;
    }
  }

  /** The `close` handler of the build process. It runs whatever the exit
      status of the build was. `listing` is the recursive listing of `dist`
      and `mime` stands for `mime.lookup`. */
  method OnBuildClose(dist: OutputDir, s3: S3Client, listing: seq<Entry>, projectId: string,
                      mime: string -> Option<string>)
    requires '$' !in projectId
    requires ListedFilesExist(listing, dist.files)
    modifies dist, s3
    ensures dist.files == PostProcessed(old(dist.files), projectId)
    ensures s3.sent == old(s3.sent) + UploadPlan(projectId, listing, dist.files, mime)
  {
    if IndexHtml in dist.files {
      var htmlContent := dist.files[IndexHtml];
      htmlContent := ReplaceAll(htmlContent, SrcAssets, SrcAssetsUrl(projectId));
      htmlContent := ReplaceAll(htmlContent, HrefAssets, HrefAssetsUrl(projectId));
      htmlContent := ReplaceAll(htmlContent, HrefIcon, HrefIconUrl(projectId));
      dist.files := dist.files[IndexHtml := htmlContent];
    }
    for i := 0 to |listing|
      invariant dist.files == PostProcessed(old(dist.files), projectId)
      invariant ListedFilesExist(listing[..i], dist.files)
      invariant s3.sent == old(s3.sent) + UploadPlan(projectId, listing[..i], dist.files, mime)
    {
      assert listing[..i + 1] == listing[..i] + [listing[i]];
      UploadPlanSnoc(projectId, listing[..i], listing[i], dist.files, mime);
      if listing[i].isDirectory {
        continue;
      }
      s3.Send(UploadOf(projectId, listing[i], dist.files, mime));
    }
    assert listing[..|listing|] == listing;
  }
}
