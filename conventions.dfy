/** The conventions the components share without a common definition: the
    build server, the reverse proxy and the API server each spell out the
    bucket address, the `__outputs/<slug>` prefix and the preview host name
    on their own. These lemmas show that the spellings agree, so that what
    one component writes is what the next one reads. */
module Conventions {

  import opened Wrappers
  import opened Text
  import Storage
  import BuildServer
  import ReverseProxy
  import ApiServer

  /** The address the rewritten page points at for a file of the build
      output is the public URL of the object the build uploads that file
      to. */
  lemma RewriteBaseIsUploadPrefix(projectId: string, file: string)
    ensures BuildServer.S3BaseUrl(projectId) + "/" + file
         == Storage.ObjectUrl(BuildServer.Bucket, BuildServer.Region, BuildServer.ObjectKey(projectId, file))
  {
    var key := BuildServer.ObjectKey(projectId, file);
    var prefix := "__outputs/" + projectId + "/";
    assert key == prefix + file by {
      assert key == key[..|prefix|] + key[|prefix|..];
    }
    ProxyHostIsBucketHost();
    SchemeAndBucket();
    OutputsDirectory();
    Regroup("https://", "uploadserviceforskywalker", ".s3.ap-south-1.amazonaws.com",
            "https://uploadserviceforskywalker", "__outputs/", "/__outputs/", projectId, file);
  }

  lemma SchemeAndBucket()
    ensures "https://uploadserviceforskywalker" == "https://" + "uploadserviceforskywalker"
  {
  }

  lemma OutputsDirectory()
    ensures "/__outputs/" == "/" + "__outputs/"
  {
  }

  /** The two ways the URL of an uploaded file is put together agree,
      given how their literal pieces fit. */
  lemma Regroup(scheme: string, bucket: string, rest: string, schemeBucket: string,
                dir: string, slashDir: string, id: string, file: string)
    requires schemeBucket == scheme + bucket
    requires slashDir == "/" + dir
    ensures schemeBucket + rest + slashDir + id + "/" + file
         == scheme + (bucket + rest) + "/" + (dir + id + "/" + file)
  {
  }

  /** The Host header the proxy sends to S3 is the bucket's virtual host. */
  lemma ProxyHostIsBucketHost()
    ensures ReverseProxy.S3Host == Storage.VirtualHost(BuildServer.Bucket, BuildServer.Region)
  {
    assert ".s3." + "ap-south-1" + ".amazonaws.com" == ".s3.ap-south-1.amazonaws.com";
  }

  /** The proxy fetches a deployment's files from the directory the
      rewritten page of the same id points at. */
  lemma ProxyTargetIsRewriteBase(subdomain: string)
    ensures ReverseProxy.StaticTarget(subdomain) == BuildServer.S3BaseUrl(subdomain)
  {
  }

  /** The path http-proxy requests upstream for a target whose path is
      `targetPath` (`common.urlJoin`): the target path and the part of the
      incoming URL before its first `?` are joined with `/`, every run of `/`
      in that is shortened to one, and the query follows as it was. */
  function UpstreamPath(targetPath: string, url: string): string
  {
    var pathPart := Before(url, '?');
    CollapseSlashes(targetPath + "/" + pathPart) + url[|pathPart|..]
  }

  /** The file a URL asks for under a deployment's directory: its path with
      runs of `/` collapsed, without the leading `/`; `index.html` for the
      root. */
  function RequestedFile(url: string): (file: string)
    requires StartsWith(url, "/")
    ensures url == "/" ==> file == BuildServer.IndexHtml
    ensures url != "/" ==> "/" + file == CollapseSlashes(Before(url, '?'))
  {
    if url == "/" then BuildServer.IndexHtml
    else
      var c := CollapseSlashes(Before(url, '?'));
      assert Before(url, '?') != [] && c[0] == '/';
      c[1..]
  }

  /** The directory of a deployment as a path on the bucket host. */
  lemma DeploymentDirectory(slug: string)
    requires slug != [] && '/' !in slug
    ensures var dir := "/__outputs/" + slug;
      dir != [] && dir[|dir| - 1] != '/' && NoPair(dir, '/', '/')
  {
    assert NoPair("/__outputs/", '/', '/') by {
      var d := "/__outputs/";
      forall i | 0 <= i < |d| - 1 ensures !(d[i] == '/' && d[i + 1] == '/') {
      }
    }
    assert NoPair(slug, '/', '/');
    NoPairConcat("/__outputs/", slug, '/', '/');
  }

  /** Joining a URL to a directory path without `//` and not ending in `/`
      collapses only the URL's own path. */
  lemma {:induction false} UpstreamPathUnderDirectory(dir: string, url: string)
    requires dir != [] && dir[|dir| - 1] != '/' && NoPair(dir, '/', '/')
    requires StartsWith(url, "/")
    ensures UpstreamPath(dir, url) == dir + CollapseSlashes(Before(url, '?')) + url[|Before(url, '?')|..]
  {
    var pathPart := Before(url, '?');
    assert pathPart != [] && pathPart[0] == '/';
    CollapseAfter(dir, "/" + pathPart);
    assert dir + "/" + pathPart == dir + ("/" + pathPart);
    assert CollapseSlashes("/" + pathPart) == CollapseSlashes(pathPart) by {
      assert ("/" + pathPart)[1..] == pathPart;
    }
  }

  /** A request for a file of a deployment is forwarded to the object the
      build uploaded under that name, with runs of `/` in the URL collapsed
      and its query kept, and the root `/` to the uploaded `index.html`; it
      carries the bucket's Host header. */
  lemma StaticRequestFetchesUploadedObject(slug: string, url: string, headers: map<string, string>)
    requires slug != [] && '/' !in slug
    requires ReverseProxy.IsStaticUrl(url)
    requires StartsWith(url, "/")
    ensures var out := ReverseProxy.OutboundRewrite(url, ReverseProxy.Outbound(UpstreamPath("/__outputs/" + slug, url), headers));
      && out.headers["host"] == ReverseProxy.S3Host
      && out.path == "/" + BuildServer.ObjectKey(slug, RequestedFile(url)) + url[|Before(url, '?')|..]
  {
    UpstreamFilePath(slug, url);
  }

  /** The path the proxy requests upstream for a deployment's file, after
      the root has been completed to `index.html`. */
  lemma UpstreamFilePath(slug: string, url: string)
    requires slug != [] && '/' !in slug
    requires StartsWith(url, "/")
    ensures UpstreamPath("/__outputs/" + slug, url) + (if url == "/" then "index.html" else [])
         == "/" + BuildServer.ObjectKey(slug, RequestedFile(url)) + url[|Before(url, '?')|..]
  {
    var query := url[|Before(url, '?')|..];
    var file := RequestedFile(url);
    var dir := "/__outputs/" + slug;
    var prefix := "__outputs/" + slug + "/";
    BuildServer.ObjectKeyIsPrefixAndFile(slug, file);
    OutputsDirectory();
    DeploymentDirectory(slug);
    UpstreamPathUnderDirectory(dir, url);
    if url == "/" {
      assert Before(url, '?') == "/";
      FileRegroup(dir, prefix, slug, "/", file, []);
    } else {
      FileRegroup(dir, prefix, slug, "/" + file, file, query);
    }
  }

  /** The upstream path of a file is `/` followed by its key. */
  lemma FileRegroup(dir: string, prefix: string, slug: string, collapsed: string, file: string, query: string)
    requires dir == "/__outputs/" + slug && prefix == "__outputs/" + slug + "/"
    requires "/__outputs/" == "/" + "__outputs/"
    requires collapsed == "/" || collapsed == "/" + file
    ensures collapsed == "/" ==> dir + collapsed + "index.html" == "/" + (prefix + "index.html")
    ensures collapsed == "/" + file ==> dir + collapsed + query == "/" + (prefix + file) + query
  {
  }

  /** A host label as a browser sends it: not empty, and only lower-case
      letters, digits and `-`. The slugs `generateSlug` makes are of this
      form; a slug a caller passes in is used unchecked. */
  predicate IsHostLabel(s: string)
  {
    s != [] && forall c | c in s :: 'a' <= c <= 'z' || '0' <= c <= '9' || c == '-'
  }

  /** A preview host name is routed to its own slug's directory: every
      request to it that is not a preflight and not for the API or the
      socket server is fetched from the directory the build of that slug
      points its page at. */
  lemma PreviewHostRoutesToSlug(slug: string, httpMethod: string, url: string, apiPort: string)
    requires IsHostLabel(slug)
    requires httpMethod != "OPTIONS" && ReverseProxy.IsStaticUrl(url)
    ensures var route := ReverseProxy.RouteOf(ReverseProxy.Request(httpMethod, ApiServer.PreviewHostname(slug), url));
      && route == ReverseProxy.Static(slug)
      && ReverseProxy.ForwardOptions(route, apiPort).value.target == BuildServer.S3BaseUrl(slug)
  {
    var hostname := ApiServer.PreviewHostname(slug);
    assert '.' !in slug;
    assert hostname == slug + ['.'] + "localhost";
    BeforeSeparator(slug, '.', "localhost");
    assert hostname != "localhost" by {
      assert |hostname| > |"localhost"|;
    }
  }

  /** The whole deployment path: when the API answers "queued", the build
      task gets the answered slug as `PROJECT_ID`, the answered URL names the
      slug's preview host, and the proxy serves that host from the directory
      that build uploads to and points its page at. This needs the slug to be
      a host label: the API server does not check a slug the caller passes. */
  lemma QueuedDeploymentIsServed(body: ApiServer.UploadBody, generated: string, env: ApiServer.Environment,
                                 launch: ApiServer.RunTaskInput -> bool, httpMethod: string, url: string)
    requires ApiServer.HandleUpload(body, generated, env, launch).response.Some?
    requires IsHostLabel(ApiServer.HandleUpload(body, generated, env, launch).response.value.slug)
    requires httpMethod != "OPTIONS" && ReverseProxy.IsStaticUrl(url)
    ensures var outcome := ApiServer.HandleUpload(body, generated, env, launch);
      var slug := outcome.response.value.slug;
      && ApiServer.Lookup(outcome.launched.environment, "PROJECT_ID") == Some(Some(slug))
      && outcome.response.value.url == "http://" + ApiServer.PreviewHostname(slug) + ":8000"
      && ReverseProxy.RouteOf(ReverseProxy.Request(httpMethod, ApiServer.PreviewHostname(slug), url))
         == ReverseProxy.Static(slug)
      && ReverseProxy.StaticTarget(slug) == BuildServer.S3BaseUrl(slug)
  {
    var slug := ApiServer.HandleUpload(body, generated, env, launch).response.value.slug;
    ApiServer.ResponseSlugIsProjectId(body, generated, env, launch);
    PreviewHostRoutesToSlug(slug, httpMethod, url, "9000");
  }
}
