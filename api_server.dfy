/** The deployment API: `POST /api/upload` picks the deployment's slug,
    launches one build task on ECS Fargate carrying the repository URL and the
    slug, and answers "queued" with the slug and its preview URL once the
    launch call has returned. `GET /api/health` reports liveness. */
module ApiServer {

  import opened Wrappers

  /** The process environment: a variable that is not in the map is unset. */
  type Environment = map<string, string>

  /** `process.env[name]`. */
  function EnvValue(env: Environment, name: string): (value: Option<string>)
    ensures value.Some? <==> name in env
    ensures value.Some? ==> value.value == env[name]
  {
    if name in env then Some(env[name]) else None
  }

  /** The ECS settings read from the environment at start-up. */
  datatype Config = Config(
    clusterArn: Option<string>,
    taskDefinitionArn: Option<string>,
    subnet1: Option<string>,
    subnet2: Option<string>,
    subnet3: Option<string>,
    securityGroups: Option<string>,
    imageName: Option<string>)

  /** The settings as `process.env` holds them: each is the variable's
      value, or unset when the variable is. */
  function ConfigOf(env: Environment): (config: Config)
    ensures config.clusterArn.Some? <==> "AWS_ECS_CLUSTER_ARN" in env
    ensures config.clusterArn.Some? ==> config.clusterArn.value == env["AWS_ECS_CLUSTER_ARN"]
    ensures config.taskDefinitionArn.Some? <==> "AWS_TASK_DEFINITION_ARN" in env
    ensures config.taskDefinitionArn.Some? ==> config.taskDefinitionArn.value == env["AWS_TASK_DEFINITION_ARN"]
    ensures config.subnet1.Some? <==> "SUBNET_1" in env
    ensures config.subnet1.Some? ==> config.subnet1.value == env["SUBNET_1"]
    ensures config.subnet2.Some? <==> "SUBNET_2" in env
    ensures config.subnet2.Some? ==> config.subnet2.value == env["SUBNET_2"]
    ensures config.subnet3.Some? <==> "SUBNET_3" in env
    ensures config.subnet3.Some? ==> config.subnet3.value == env["SUBNET_3"]
    ensures config.securityGroups.Some? <==> "SECURITY_GROUPS" in env
    ensures config.securityGroups.Some? ==> config.securityGroups.value == env["SECURITY_GROUPS"]
    ensures config.imageName.Some? <==> "IMAGE_NAME" in env
    ensures config.imageName.Some? ==> config.imageName.value == env["IMAGE_NAME"]
  {
    Config(EnvValue(env, "AWS_ECS_CLUSTER_ARN"), EnvValue(env, "AWS_TASK_DEFINITION_ARN"),
           EnvValue(env, "SUBNET_1"), EnvValue(env, "SUBNET_2"), EnvValue(env, "SUBNET_3"),
           EnvValue(env, "SECURITY_GROUPS"), EnvValue(env, "IMAGE_NAME"))
  }

  /** One `{ name, value }` entry of a container's environment; an unset
      value stays unset. */
  datatype KeyValuePair = KeyValuePair(name: string, value: Option<string>)

  /** The input of a `RunTaskCommand`, with the one container override. */
  datatype RunTaskInput = RunTaskInput(
    cluster: Option<string>,
    taskDefinition: Option<string>,
    launchType: string,
    count: nat,
    assignPublicIp: string,
    subnets: seq<Option<string>>,
    securityGroups: seq<Option<string>>,
    containerName: Option<string>,
    environment: seq<KeyValuePair>)

  /** The value a container sees for variable `name`: that of the first entry
      with this name, if any. */
  function Lookup(environment: seq<KeyValuePair>, name: string): (found: Option<Option<string>>)
    ensures found.None? <==> forall i | 0 <= i < |environment| :: environment[i].name != name
  {
    if environment == [] then None
    else if environment[0].name == name then Some(environment[0].value)
    else Lookup(environment[1..], name)
  }

  /** Names that occur once each. */
  predicate DistinctNames(environment: seq<KeyValuePair>)
  {
    forall i, j | 0 <= i < j < |environment| :: environment[i].name != environment[j].name
  }

  /** With distinct names, a variable's value is that of its one entry. */
  lemma {:induction false} LookupDistinct(environment: seq<KeyValuePair>, i: nat)
    requires DistinctNames(environment)
    requires i < |environment|
    ensures Lookup(environment, environment[i].name) == Some(environment[i].value)
  {
    if i > 0 {
      assert environment[1..][i - 1] == environment[i];
      assert environment[0].name != environment[i].name;
      LookupDistinct(environment[1..], i - 1);
    }
  }

  /** `existingSlug ? existingSlug : generateSlug()`: the caller's slug when
      it is a non-empty string, the generated one otherwise. */
  function ResolveSlug(existingSlug: Option<string>, generated: string): (slug: string)
    ensures existingSlug.Some? && existingSlug.value != "" ==> slug == existingSlug.value
    ensures existingSlug.None? || existingSlug.value == "" ==> slug == generated
  {
    if existingSlug.Some? && existingSlug.value != "" then existingSlug.value else generated
  }

  /** The build task launched for repository `gitUrl` under slug `slug`: one
      Fargate task with a public IP in the three configured subnets and the
      configured security group, whose container gets exactly the repository
      URL, the slug as `PROJECT_ID` and the AWS credentials and region. */
  function RunTaskFor(config: Config, env: Environment, gitUrl: Option<string>, slug: string): (input: RunTaskInput)
    ensures input.launchType == "FARGATE" && input.count == 1 && input.assignPublicIp == "ENABLED"
    ensures input.cluster == config.clusterArn && input.taskDefinition == config.taskDefinitionArn
    ensures input.subnets == [config.subnet1, config.subnet2, config.subnet3]
    ensures input.securityGroups == [config.securityGroups]
    ensures input.containerName == config.imageName
    ensures |input.environment| == 5
    ensures [input.environment[0].name, input.environment[1].name, input.environment[2].name,
             input.environment[3].name, input.environment[4].name]
         == ["GIT_REPOSITORY_URL", "PROJECT_ID", "AWS_ACCESS_KEY_ID", "AWS_SECRET_ACCESS_KEY", "AWS_REGION"]
    ensures input.environment[0].value == gitUrl && input.environment[1].value == Some(slug)
    ensures input.environment[2].value == EnvValue(env, "AWS_ACCESS_KEY_ID")
    ensures input.environment[3].value == EnvValue(env, "AWS_SECRET_ACCESS_KEY")
    ensures input.environment[4].value == EnvValue(env, "AWS_DEFAULT_REGION")
  {
    RunTaskInput(
      config.clusterArn,
      config.taskDefinitionArn,
      "FARGATE",
      1,
      "ENABLED",
      [config.subnet1, config.subnet2, config.subnet3],
      [config.securityGroups],
      config.imageName,
      [ KeyValuePair("GIT_REPOSITORY_URL", gitUrl),
        KeyValuePair("PROJECT_ID", Some(slug)),
        KeyValuePair("AWS_ACCESS_KEY_ID", EnvValue(env, "AWS_ACCESS_KEY_ID")),
        KeyValuePair("AWS_SECRET_ACCESS_KEY", EnvValue(env, "AWS_SECRET_ACCESS_KEY")),
        KeyValuePair("AWS_REGION", EnvValue(env, "AWS_DEFAULT_REGION")) ])
  }

  /** The build container sees each of the five variables exactly as set:
      the repository URL, the slug as `PROJECT_ID`, the credentials, and the
      region under the name `AWS_REGION`; it sees no other variable. */
  lemma ContainerEnvironment(config: Config, env: Environment, gitUrl: Option<string>, slug: string, name: string)
    ensures var e := RunTaskFor(config, env, gitUrl, slug).environment;
      && Lookup(e, "GIT_REPOSITORY_URL") == Some(gitUrl)
      && Lookup(e, "PROJECT_ID") == Some(Some(slug))
      && Lookup(e, "AWS_ACCESS_KEY_ID") == Some(EnvValue(env, "AWS_ACCESS_KEY_ID"))
      && Lookup(e, "AWS_SECRET_ACCESS_KEY") == Some(EnvValue(env, "AWS_SECRET_ACCESS_KEY"))
      && Lookup(e, "AWS_REGION") == Some(EnvValue(env, "AWS_DEFAULT_REGION"))
      && (Lookup(e, name).Some? <==> name in ["GIT_REPOSITORY_URL", "PROJECT_ID", "AWS_ACCESS_KEY_ID", "AWS_SECRET_ACCESS_KEY", "AWS_REGION"])
  {
    var e := RunTaskFor(config, env, gitUrl, slug).environment;
    assert DistinctNames(e);
    LookupDistinct(e, 0);
    LookupDistinct(e, 1);
    LookupDistinct(e, 2);
    LookupDistinct(e, 3);
    LookupDistinct(e, 4);
  }

  /** The host name of a deployment's preview URL. */
  function PreviewHostname(slug: string): string
  {
    slug + ".localhost"
  }

  /** The preview URL of a deployment: its slug as a subdomain of the
      proxy at `localhost:8000`. */
  function PreviewUrl(slug: string): (url: string)
    ensures url == "http://" + PreviewHostname(slug) + ":8000"
  {
    "http://" + slug + ".localhost:8000"
  }

  /** The JSON body of `POST /api/upload`; either field may be missing. */
  datatype UploadBody = UploadBody(gitUrl: Option<string>, existingSlug: Option<string>)

  /** `{ status: 'queued', data: { slug, url } }`. */
  datatype QueuedResponse = QueuedResponse(status: string, slug: string, url: string)

  /** What one upload request does: the one task it asks ECS to run, and the
      response, if it sends one. */
  datatype UploadOutcome = UploadOutcome(launched: RunTaskInput, response: Option<QueuedResponse>)

  /** The `/api/upload` handler. `generated` is what `generateSlug()` returns
      and `launch` whether `ecsClient.send` resolves for a given task. When
      it rejects, the handler ends before answering: no slug is returned. */
  function HandleUpload(body: UploadBody, generated: string, env: Environment,
                        launch: RunTaskInput -> bool): (outcome: UploadOutcome)
    ensures outcome.launched == RunTaskFor(ConfigOf(env), env, body.gitUrl, ResolveSlug(body.existingSlug, generated))
    ensures outcome.response.Some? <==> launch(outcome.launched)
    ensures outcome.response.Some? ==>
      var slug := ResolveSlug(body.existingSlug, generated);
      outcome.response.value == QueuedResponse("queued", slug, PreviewUrl(slug))
  {
    var slug := ResolveSlug(body.existingSlug, generated);
    var command := RunTaskFor(ConfigOf(env), env, body.gitUrl, slug);
    if launch(command) then
      UploadOutcome(command, Some(QueuedResponse("queued", slug, "http://" + slug + ".localhost:8000")))
    else
      UploadOutcome(command, None)
  }

  /** The slug the response reports is the `PROJECT_ID` the build task gets. */
  lemma ResponseSlugIsProjectId(body: UploadBody, generated: string, env: Environment,
                                launch: RunTaskInput -> bool)
    requires HandleUpload(body, generated, env, launch).response.Some?
    ensures var outcome := HandleUpload(body, generated, env, launch);
      Lookup(outcome.launched.environment, "PROJECT_ID") == Some(Some(outcome.response.value.slug))
  {
    var slug := ResolveSlug(body.existingSlug, generated);
    ContainerEnvironment(ConfigOf(env), env, body.gitUrl, slug, "PROJECT_ID");
  }

  /** `{ status: 'healthy', service: 'api-server', timestamp }`. */
  datatype HealthResponse = HealthResponse(status: string, service: string, timestamp: string)

  /** The `/api/health` handler; `now` is the current time as an ISO string. */
  function Health(now: string): (response: HealthResponse)
    ensures response.status == "healthy" && response.service == "api-server"
    ensures response.timestamp == now
  {
    HealthResponse("healthy", "api-server", now)
  }
}
