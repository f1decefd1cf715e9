# skywalker, modelled in Dafny

skywalker deploys front-end repositories as static sites. The API server
takes a Git URL. It picks a slug for the deployment and launches one build
task on ECS Fargate. The build server in that task builds the project,
rewrites the asset references of `dist/index.html` to absolute S3 URLs and
uploads `dist` under `__outputs/<slug>/` in the bucket
`uploadserviceforskywalker`. The reverse proxy on port 8000 serves
`<slug>.localhost` from that directory. It also sends the bare `localhost`
root to the interface, `/api/` to the API server and `/socket.io/` to the
socket server. Two scripts check the environment before start-up and the
health of the running services.

The project models these five components and the conventions that connect
them:

- `text.dfy` (module `Text`): prefixes, occurrences, the first field of a
  split, and JavaScript's global literal `replace`. It also holds the
  general lemma that no occurrence of a pattern survives a replacement by a
  text "isolated" from it.
- `storage.dfy` (module `Storage`): the virtual-hosted S3 URL of an
  object. The proxy's and the builder's spellings of the bucket address are
  compared against it.
- `reverse_proxy.dfy` (module `ReverseProxy`):
  - routing;
  - forwarding options;
  - the upgrade handler;
  - the CORS headers;
  - the `proxyReq`, `proxyRes` and `error` handlers. The handlers are
    methods on classes for the outgoing request and the client response.
- `build_server.dfy` (module `BuildServer`):
  - the S3 base URL and object keys;
  - the three-step rewrite of `index.html`;
  - the upload plan;
  - the imperative `close` handler. It rewrites the page in place, then
    walks the listing in a loop and sends one `PutObjectCommand` per file.
- `api_server.dfy` (module `ApiServer`):
  - slug resolution;
  - the `RunTaskCommand` input;
  - the preview URL;
  - the upload and health handlers.
- `check_env.dfy` (module `CheckEnv`): the required-variable list and the
  present/missing loop with its exit decision.
- `health_check.dfy` (module `HealthCheck`): the classification of a probe
  outcome and the exit decision.
- `conventions.dfy` (module `Conventions`): lemmas across components.
  - The rewrite base is the URL of the uploaded objects.
  - The proxy fetches from that same directory, and a static request
    fetches the object uploaded for the file it names.
  - A preview host is routed to its own slug.
  - A queued deployment's `PROJECT_ID` is the slug that the response
    reports.

Environment values and HTTP header values are truthy when present and not
empty. Header names are lower case, as Node.js keeps them.

## Model

| member | source | states |
|---|---|---|
| Text.Before | reverse-proxy/index.js:25 | `hostname.split('.')[0]`: a prefix of the host name without `.`, followed by `.` unless it is the whole name |
| Text.ReplaceAll | build-server/script.js:45-47 | a global replace by a text no shorter than the pattern never shortens the page, and replacing the pattern by itself changes nothing |
| Text.ReplaceAllAbsent | build-server/script.js:45-47 | a global replace leaves a text without the pattern unchanged |
| Text.ReplaceAllFirst | build-server/script.js:45-47 | a global replace substitutes the leftmost occurrence and keeps the text before it |
| Text.NoOccurrenceAfterReplace | build-server/script.js:45-47 | after a replace by an isolated text, neither the pattern nor a previously absent text occurs anywhere |
| ReverseProxy.UpgradeTarget | reverse-proxy/index.js:17-21 | an upgrade goes to the socket server at `localhost:9001` exactly when its URL starts with `/socket.io/`; others are left alone |
| ReverseProxy.Subdomain | reverse-proxy/index.js:25 | the subdomain is the host name up to its first `.`: a prefix without `.`, followed by `.` unless it is the whole name, and the whole name when it has no `.` |
| ReverseProxy.StaticTarget | reverse-proxy/index.js:69-70 | the S3 target of a subdomain is the bucket URL, `/__outputs/`, then exactly the subdomain |
| ReverseProxy.RouteOf | reverse-proxy/index.js:23-81 | each route holds exactly under its condition, in the order preflight, `localhost` root, `/api/`, `/socket.io/`, S3; the S3 route uses the first label of the host name |
| ReverseProxy.ApiServerPort | reverse-proxy/index.js:9 | the API port is the configured one when it is set and non-empty, otherwise 9000 |
| ReverseProxy.ForwardOptions | reverse-proxy/index.js:37-80 | targets and flags per route: `changeOrigin` always, `ws` only for socket.io, and `secure` with the bucket Host header only for S3 under `__outputs/<subdomain>`; a preflight is not forwarded |
| ReverseProxy.SetCorsHeaders | reverse-proxy/index.js:28-30 | the three header updates add exactly the three CORS headers |
| ReverseProxy.HandleRequest | reverse-proxy/index.js:23-81 | every request gets the CORS headers; a preflight gets 200 with the plain-text body `OK`, its length and a tag, and is not forwarded; any other request is forwarded as its route says, with status, body and other headers untouched |
| ReverseProxy.OutboundRewrite | reverse-proxy/index.js:83-95 | a request outside `/api/` and `/socket.io/` gets the bucket Host header, and the root `/` also gets `index.html` appended to its path; other requests pass unchanged |
| ReverseProxy.ProxyRequest.OnProxyReq | reverse-proxy/index.js:83-95 | the handler changes the outgoing request's path and headers exactly as `OutboundRewrite` says |
| ReverseProxy.InterfaceRootIsRewrittenToo | reverse-proxy/index.js:83-95 | the interface root `localhost/` also gets the S3 Host header and `index.html`, because the test is on the URL only |
| ReverseProxy.SendHeaders | reverse-proxy/index.js:34 | `res.send` sets the content type, the decimal byte length and the tag unless one is set already, and leaves every other header as it was |
| ReverseProxy.FixedBodyLengths | reverse-proxy/index.js:34 | the preflight body `OK` is sent with length `2` and the error body with length `20` |
| ReverseProxy.ServerResponse.OnProxyError | reverse-proxy/index.js:97-102 | a failed `proxy.web` call answers 500 "proxy error occurred" as `res.send` does: `text/html; charset=utf-8` unless a type is set (which then gets the UTF-8 charset), length 20, the tag unless one is set; other headers are kept |
| ReverseProxy.CopiedHeaders | reverse-proxy/index.js:104-120 | for a static URL, each of content-type, cache-control and etag that the upstream sent with a value is copied; every other header is unchanged |
| ReverseProxy.ServerResponse.OnProxyRes | reverse-proxy/index.js:104-120 | the handler sets the client headers exactly as `CopiedHeaders` says; status and body are untouched |
| BuildServer.S3BaseUrl | build-server/script.js:44 | the rewrite base is an `https://` URL that ends with the project id |
| BuildServer.ObjectKey | build-server/script.js:65 | the key of a file is `__outputs/<projectId>/` followed by its relative path |
| BuildServer.ObjectKeyIsPrefixAndFile | build-server/script.js:65 | the key of a file is exactly `__outputs/`, the id, `/` and the file's path |
| BuildServer.ObjectKeyInjective | build-server/script.js:65 | different files, or deployments whose ids have no `/`, never share a key |
| BuildServer.SlashedIdsShareKeys | build-server/script.js:65 | for ids holding `/` keys collide: file `b/c.js` of `a` and file `c.js` of `a/b` share one key |
| BuildServer.ReplacementIsolated | build-server/script.js:44-47 | each of the three replacements is isolated from each of the three patterns |
| BuildServer.RewriteIndexHtml | build-server/script.js:43-47 | the rewritten page is never shorter than the page read |
| BuildServer.RewriteLeavesNoRootRelativeReference | build-server/script.js:43-47 | after the rewrite, no `src="/assets/`, `href="/assets/` or `href="/vite.svg"` is left anywhere in the page |
| BuildServer.RewriteKeepsPageWithoutReferences | build-server/script.js:45-47 | a page with none of the three references is written back unchanged |
| BuildServer.RewriteSingleReference | build-server/script.js:45-47 | a page with one root-relative reference, of any of the three kinds, gets exactly that reference pointed below the deployment's base URL, and nothing else changes |
| BuildServer.PostProcessed | build-server/script.js:38-51 | after the rewrite step, `index.html` is rewritten if it exists; every other file, and the set of files, is unchanged |
| BuildServer.FileEntries | build-server/script.js:53-59 | the entries that are uploaded are listed entries that are not directories |
| BuildServer.UploadOf | build-server/script.js:63-68 | the upload of a file goes to the bucket under `__outputs/<id>/` followed by the file's path, with its contents and its MIME type |
| BuildServer.UploadPlan | build-server/script.js:53-72 | there is at most one upload per listed entry, each to the bucket under `__outputs/<id>/` |
| BuildServer.FileEntriesCount | build-server/script.js:55-59 | every listed file is uploaded as often as it is listed; a directory is never uploaded |
| BuildServer.UploadPlanFollowsFiles | build-server/script.js:55-72 | the i-th upload is the i-th file in listing order, with the bucket, the key `__outputs/<id>/<path>`, the file's current contents and its MIME type |
| BuildServer.UploadPlanSnoc | build-server/script.js:55-72 | one more listed entry adds its upload, if it is a file, at the end |
| BuildServer.S3Client.Send | build-server/script.js:70 | a send appends its command to the completed uploads |
| BuildServer.OnBuildClose | build-server/script.js:33-75 | the handler leaves `dist` as `PostProcessed` says and sends the upload plan of the rewritten files, in order |
| ApiServer.ConfigOf | api-server/index.js:21-29 | each of the seven ECS settings is set exactly when its variable is, and then holds the variable's value |
| ApiServer.EnvValue | api-server/index.js:21-29 | a configuration value is the environment variable's value when the variable is set, and is unset otherwise |
| ApiServer.ResolveSlug | api-server/index.js:39 | the slug is the caller's slug when it is non-empty, otherwise the generated one |
| ApiServer.Lookup | api-server/index.js:63-84 | a container variable is missing exactly when no entry has its name |
| ApiServer.LookupDistinct | api-server/index.js:63-84 | when names are distinct, a variable's value is its entry's value |
| ApiServer.RunTaskFor | api-server/index.js:41-88 | the task is one Fargate task with a public IP, in the three subnets and one security group; its container gets exactly five variables, in order |
| ApiServer.ContainerEnvironment | api-server/index.js:63-84 | the container sees the Git URL, the slug as `PROJECT_ID`, the credentials and `AWS_DEFAULT_REGION` as `AWS_REGION`, and no other variable |
| ApiServer.PreviewUrl | api-server/index.js:96 | the preview URL is `http://<slug>.localhost:8000` |
| ApiServer.HandleUpload | api-server/index.js:37-99 | the handler launches the task for the resolved slug and answers "queued" with that slug and its preview URL exactly when the launch succeeds |
| ApiServer.ResponseSlugIsProjectId | api-server/index.js:69-96 | the slug in the response is the build's `PROJECT_ID` |
| ApiServer.Health | api-server/index.js:33-35 | the health answer is status "healthy", service "api-server" and the current time |
| CheckEnv.CheckEnvironment | scripts/check-env.js:20-43 | the loop yields the present and the missing required names in order; the exit code is 1 exactly when some name is missing, otherwise 0 |
| CheckEnv.Present | scripts/check-env.js:26-32 | the present names are at most as many as the required ones, and each is required and set non-empty |
| CheckEnv.Missing | scripts/check-env.js:26-32 | the missing names are at most as many as the required ones, and each is required and unset or empty |
| CheckEnv.PresentMissingInterleave | scripts/check-env.js:26-32 | the required list is an interleaving of `present` and `missing`, so each name lands in exactly one and both keep the list's order |
| CheckEnv.PresentMissingPartition | scripts/check-env.js:26-34 | together the two lists hold each required name exactly as often as the list does, and their lengths add up to the list's |
| CheckEnv.PresentIffSet | scripts/check-env.js:27 | a name is present exactly when it is required and set non-empty, and missing exactly when it is required and unset or empty |
| CheckEnv.FailsIffSomeUnset | scripts/check-env.js:36-42 | `missing` is non-empty exactly when some required variable is unset or empty |
| CheckEnv.ReportedCount | scripts/check-env.js:34 | the reported count is at most 12, and equals 12 exactly when nothing is missing |
| HealthCheck.CheckService | scripts/health-check.js:9-23 | a service is healthy exactly when it answers with a status below 500; a 4xx answer is healthy and a thrown error is not |
| HealthCheck.Results | scripts/health-check.js:29 | there is one result per service, in service order, each classifying the probe of `url + endpoint` |
| HealthCheck.CountTrue | scripts/health-check.js:30 | the healthy count is at most the number of results, and below it when the first result is false |
| HealthCheck.CountTrueAll | scripts/health-check.js:30 | the healthy count is at most the number of results, and equals it exactly when every result is true |
| HealthCheck.HealthExitCode | scripts/health-check.js:34-40 | the exit code is 0 exactly when all three services answer below 500, and 1 otherwise |
| Conventions.RewriteBaseIsUploadPrefix | build-server/script.js:44-65 | the rewritten URL of a file is the S3 URL of the object the build uploads for it |
| Conventions.ProxyHostIsBucketHost | reverse-proxy/index.js:77-79 | the Host header the proxy sends to S3 is the virtual host of the bucket the build uploads to |
| Conventions.ProxyTargetIsRewriteBase | reverse-proxy/index.js:69-70 | the proxy's S3 target for a subdomain is the builder's rewrite base for that id |
| Text.CollapseSlashes | reverse-proxy/index.js:73-80 | shortening runs of `/` in the joined path never lengthens it and keeps its first character |
| Text.CollapseLeavesNoDoubleSlash | reverse-proxy/index.js:73-80 | after the shortening no `//` is left |
| Text.CollapseKeepsSingleSlashes | reverse-proxy/index.js:73-80 | a path without `//` is left as it is |
| Text.CollapseAfter | reverse-proxy/index.js:73-80 | behind a directory path without `//` that does not end in `/`, only the appended part is shortened |
| Conventions.RequestedFile | reverse-proxy/index.js:73-95 | the file a URL names is its path before `?` with runs of `/` shortened and the leading `/` dropped, and `index.html` for `/` |
| Conventions.UpstreamPathUnderDirectory | reverse-proxy/index.js:73-80 | joining a URL to a deployment directory shortens only the URL's own path and keeps its query |
| Conventions.UpstreamFilePath | reverse-proxy/index.js:73-95 | the path requested upstream, with `index.html` added for the root, is `/`, the object key of the requested file, then the query |
| Conventions.StaticRequestFetchesUploadedObject | reverse-proxy/index.js:73-95 | for a subdomain without `/`, a request for `/<file>` fetches the object uploaded for that file, with runs of `/` shortened and the query kept, and `/` fetches the uploaded `index.html`; it carries the bucket Host header |
| Conventions.PreviewHostRoutesToSlug | reverse-proxy/index.js:23-81 | a static request to `<slug>.localhost` (slug a host label of lower-case letters, digits and `-`; not a preflight) is routed to the slug's directory, the builder's base for that slug |
| Conventions.QueuedDeploymentIsServed | api-server/index.js:39-98 | a queued deployment's `PROJECT_ID` is the reported slug, its URL names the slug's preview host, and, when the slug is a host label, the proxy serves that host from the slug's upload directory |

## Left out

- Socket server, interface server and the deploy/start/status scripts: socket-server/index.js, interface/server.js and the other scripts are not part of this model.
- I/O is not modelled. That covers console logging, loading `.env.local`, `app.listen` (the proxy listens twice on one port), the child process `npm install && npm run build` and its output streams, and the actual HTTP and S3 traffic.
- Files are modelled as a path-to-contents map. The recursive directory listing, `mime.lookup`, `generateSlug`, the clock, `ecsClient.send` and the probe of a URL become parameters.
- BuildServer.RewriteIndexHtml: requires that the project id holds no `$`. JavaScript's expansion of `$&`, `$1`, etc. in a replacement string is not modelled.
- BuildServer.RewriteLeavesNoRootRelativeReference: holds only for a project id without `"`. A quote in the id could make a replacement contain a pattern.
- BuildServer.OnBuildClose: every `s3Client.send` is taken to succeed. A rejected send, which ends the handler with the remaining files not uploaded, is not modelled.
- BuildServer.OnBuildClose: the project id is a string. An unset `PROJECT_ID`, which the template would spell `undefined`, is not modelled.
- ApiServer.HandleUpload: a rejected launch is modelled as no response at all. The Express version is an assumption, since the repository pins none. Under Express 4 the rejection of the async handler is unhandled, and on Node.js 15 or later that ends the API server process, so later requests fail too; that crash is not modelled. Under Express 5 the rejection would become a 500 answer instead.
- ApiServer.HandleUpload: a caller's `existingSlug` is used unchecked. A slug with `.` or `/`, upper-case letters or other characters outside a host label is accepted, but the preview URL does not reach its files: the proxy takes the host name up to the first `.`, browsers send host names in lower case, and a `/` in an id makes keys of different deployments collide (BuildServer.SlashedIdsShareKeys). The lemmas that follow a deployment to the proxy therefore require the slug to be a host label.
- ApiServer.UploadBody: `gitUrl` and `existingSlug` are optional strings. Other JSON types, and their truthiness, are not modelled.
- ReverseProxy.HandleRequest: a request without a Host header, or with an empty one, has no `req.hostname`; `hostname.split` then throws before the CORS headers are set and before the OPTIONS test, and Express answers 500. The model's host name is always a string, so that case is not modelled.
- ReverseProxy.HandleRequest: the tag `res.send` derives from the body (a weak tag over its SHA-1) is a parameter.
- ReverseProxy.ServerResponse.OnProxyError: the error listener also gets the failures of `proxy.ws`, which the upgrade handler calls without a callback. There the third argument is the client socket, `res.status` is not a function, the listener throws and the proxy process exits. That crash is not modelled; the method covers failed `proxy.web` calls only.
- ReverseProxy.ServerResponse.OnProxyError: how Express adds `charset=utf-8` to a content type already set is a parameter. An error after the response has started, when `res.send` throws because the headers are sent, is not modelled, and neither is a HEAD request, for which no body is written.
- http-proxy's own work is not modelled. That covers streaming the bodies, passing through upstream headers other than the three copied ones, and the effect of `changeOrigin` and `secure`.
- Conventions.UpstreamPath: http-proxy's join of the target path and the URL is modelled as its `urlJoin`: the two are joined with `/`, runs of `/` before the query are shortened to one, and the query follows unchanged. Its replacement of a first `http:/` or `https:/` in the joined path by `http://` or `https://`, and the normalisation `url.parse` applies to the incoming URL, are not modelled.
- Conventions.StaticRequestFetchesUploadedObject: requires a subdomain that is not empty and holds no `/`, and a URL in origin form, starting with `/`. A Host header starting with `.` gives an empty subdomain, and a request in absolute form has a URL starting with the scheme; both are left out.
- HealthCheck.Results: the probes run concurrently under `Promise.all`; the model keeps only the order of their results. The 5-second timeout shows up only as a `Threw` outcome.
